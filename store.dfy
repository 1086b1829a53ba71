/** The record store of `src/lib/db.ts`. The source keeps each kind of record
    as a JSON array in a file and every operation reads the whole array,
    finds an index, changes it and writes the array back; here the arrays
    are the `seq` fields of one `Store` object and file I/O is left out. */
module Db {
  import opened Wrappers
  import opened Seqs
  import opened Records

  // ----- selectors passed to Filter / FindIndex -----

  function ProjectWithId(id: Id): Project -> bool { (p: Project) => p.id == id }
  function AccountWithId(id: Id): SocialAccount -> bool { (a: SocialAccount) => a.id == id }
  function ContentWithId(id: Id): ContentItem -> bool { (c: ContentItem) => c.id == id }
  function LeadWithId(id: Id): Lead -> bool { (l: Lead) => l.id == id }

  /** Accounts of one (project, platform) pair, connected or not. */
  function SamePair(projectId: Id, platform: string): SocialAccount -> bool {
    (a: SocialAccount) => a.projectId == projectId && a.platform == platform
  }

  /** The accounts `getSocialByPlatform` accepts. */
  function ConnectedTo(projectId: Id, platform: string): SocialAccount -> bool {
    (a: SocialAccount) => a.projectId == projectId && a.platform == platform && a.connected
  }

  function ContentOf(projectId: Id): ContentItem -> bool { (c: ContentItem) => c.projectId == projectId }
  function LeadsOf(projectId: Id): Lead -> bool { (l: Lead) => l.projectId == projectId }

  // ----- the store's operations on plain sequences -----

  /** `getSocialByPlatform`: the first connected account of the pair. */
  function LookupSocial(accounts: seq<SocialAccount>, projectId: Id, platform: string): (r: Option<SocialAccount>)
    ensures r.Some? ==> r.value in accounts && r.value.projectId == projectId
                        && r.value.platform == platform && r.value.connected
    ensures r.None? <==> forall i :: 0 <= i < |accounts| ==>
              !(accounts[i].projectId == projectId && accounts[i].platform == platform && accounts[i].connected)
  {
    Find(accounts, ConnectedTo(projectId, platform))
  }

  /** Two account lists that agree, position by position, on everything
      `getSocialByPlatform` looks at; a token update keeps this. */
  predicate SameRoutes(a: seq<SocialAccount>, b: seq<SocialAccount>) {
    |a| == |b| &&
    forall i :: 0 <= i < |a| ==>
      a[i].projectId == b[i].projectId && a[i].platform == b[i].platform && a[i].connected == b[i].connected
  }

  /** Lists with the same routes answer every lookup alike. */
  lemma SameRoutesLookup(a: seq<SocialAccount>, b: seq<SocialAccount>, projectId: Id, platform: string)
    requires SameRoutes(a, b)
    ensures LookupSocial(a, projectId, platform).Some? <==> LookupSocial(b, projectId, platform).Some?
  {
    if LookupSocial(a, projectId, platform).None? {
      forall i | 0 <= i < |b|
        ensures !(b[i].projectId == projectId && b[i].platform == platform && b[i].connected)
      {
        assert !(a[i].projectId == projectId && a[i].platform == platform && a[i].connected);
      }
    }
  }

  /** `connectSocial`'s new account list: every account of the same pair is
      dropped and the new one appended. */
  function Connect(accounts: seq<SocialAccount>, a: SocialAccount): seq<SocialAccount> {
    Filter(accounts, Not(SamePair(a.projectId, a.platform))) + [a]
  }

  lemma {:induction false} FilterDropsPair(s: seq<SocialAccount>, projectId: Id, platform: string)
    ensures Filter(Filter(s, Not(SamePair(projectId, platform))), SamePair(projectId, platform)) == []
  {
    if s != [] {
      FilterDropsPair(s[1..], projectId, platform);
    }
  }

  lemma {:induction false} FilterKeepsOtherPair(s: seq<SocialAccount>, projectId: Id, platform: string, q: Id, pl: string)
    requires q != projectId || pl != platform
    ensures Filter(Filter(s, Not(SamePair(projectId, platform))), SamePair(q, pl)) == Filter(s, SamePair(q, pl))
  {
    if s != [] {
      FilterKeepsOtherPair(s[1..], projectId, platform, q, pl);
    }
  }

  /** After a connect the pair has exactly one account, the new one. */
  lemma ConnectLeavesOneAccount(accounts: seq<SocialAccount>, a: SocialAccount)
    ensures Filter(Connect(accounts, a), SamePair(a.projectId, a.platform)) == [a]
  {
    var rest := Filter(accounts, Not(SamePair(a.projectId, a.platform)));
    FilterAppend(rest, [a], SamePair(a.projectId, a.platform));
    FilterDropsPair(accounts, a.projectId, a.platform);
  }

  /** A connect leaves the accounts of every other pair as they were. */
  lemma ConnectKeepsOtherPairs(accounts: seq<SocialAccount>, a: SocialAccount, q: Id, pl: string)
    requires q != a.projectId || pl != a.platform
    ensures Filter(Connect(accounts, a), SamePair(q, pl)) == Filter(accounts, SamePair(q, pl))
  {
    var rest := Filter(accounts, Not(SamePair(a.projectId, a.platform)));
    FilterAppend(rest, [a], SamePair(q, pl));
    FilterKeepsOtherPair(accounts, a.projectId, a.platform, q, pl);
  }

  /** After a connect, the lookup of the pair finds the new account. */
  lemma ConnectThenLookup(accounts: seq<SocialAccount>, a: SocialAccount)
    requires a.connected
    ensures LookupSocial(Connect(accounts, a), a.projectId, a.platform) == Some(a)
  {
    var rest := Filter(accounts, Not(SamePair(a.projectId, a.platform)));
    var s := Connect(accounts, a);
    forall i | 0 <= i < |rest|
      ensures !ConnectedTo(a.projectId, a.platform)(s[i])
    {
      assert s[i] == rest[i] && Not(SamePair(a.projectId, a.platform))(rest[i]);
    }
    assert s[|rest|] == a && ConnectedTo(a.projectId, a.platform)(a);
  }

  /** A filter keeps its input whole exactly when nothing fails the test;
      `disconnectSocial` compares the lengths to tell. */
  lemma {:induction false} FilterKeepsLength<T>(s: seq<T>, p: T -> bool)
    ensures |Filter(s, p)| == |s| <==> forall i :: 0 <= i < |s| ==> p(s[i])
  {
    if s != [] {
      FilterKeepsLength(s[1..], p);
      assert forall i :: 1 <= i < |s| ==> s[i] == s[1..][i - 1];
    }
  }

  /** After a disconnect the pair has no account for the lookup to find. */
  lemma DisconnectThenLookup(accounts: seq<SocialAccount>, projectId: Id, platform: string)
    ensures LookupSocial(Filter(accounts, Not(SamePair(projectId, platform))), projectId, platform) == None
  {
  }

  function NewContentItem(c: NewContent, id: Id, now: int): ContentItem {
    ContentItem(id, c.projectId, c.kind, c.caption, c.hashtags, c.platform,
                c.imagePrompt, c.imageUrl, c.status, now, None)
  }

  function NewLeadRecord(l: NewLead, id: Id, now: int): Lead {
    Lead(id, l.projectId, l.name, l.platform, l.profileUrl, l.painPoint,
         l.status, l.lastMessage, l.conversations, now, l.metadata)
  }

  // ===== distinct ids =====

  predicate DistinctProjectIds(s: seq<Project>) {
    forall i, j :: 0 <= i < j < |s| ==> s[i].id != s[j].id
  }

  /** With distinct ids, the id of the `i`-th project finds the `i`-th. */
  lemma ProjectAt(projects: seq<Project>, i: nat)
    requires i < |projects| && DistinctProjectIds(projects)
    ensures FindIndex(projects, ProjectWithId(projects[i].id)) == i
  {
    assert ProjectWithId(projects[i].id)(projects[i]);
  }

  predicate DistinctContentIds(s: seq<ContentItem>) {
    forall i, j :: 0 <= i < j < |s| ==> s[i].id != s[j].id
  }

  /** An element of a store sequence with distinct ids is where the store
      looks for its id. */
  lemma ContentAt(content: seq<ContentItem>, item: ContentItem)
    requires item in content && DistinctContentIds(content)
    ensures 0 <= FindIndex(content, ContentWithId(item.id))
    ensures content[FindIndex(content, ContentWithId(item.id))] == item
  {
    var j :| 0 <= j < |content| && content[j] == item;
    assert ContentWithId(item.id)(content[j]);
  }

  predicate DistinctLeadIds(s: seq<Lead>) {
    forall i, j :: 0 <= i < j < |s| ==> s[i].id != s[j].id
  }

  lemma LeadAt(leads: seq<Lead>, lead: Lead)
    requires lead in leads && DistinctLeadIds(leads)
    ensures 0 <= FindIndex(leads, LeadWithId(lead.id))
    ensures leads[FindIndex(leads, LeadWithId(lead.id))] == lead
  {
    var j :| 0 <= j < |leads| && leads[j] == lead;
    assert LeadWithId(lead.id)(leads[j]);
  }

  /** The JSON files as one object: each method is one read-modify-write. */
  class Store {
    var projects: seq<Project>
    var accounts: seq<SocialAccount>
    var content: seq<ContentItem>
    var leads: seq<Lead>
    var nextId: Id   // stands for crypto.randomUUID(): the next id to hand out

    /** Every id was handed out by the counter, and project, content and
        lead ids are distinct. */
    ghost predicate Valid()
      reads this
    {
      && (forall i :: 0 <= i < |projects| ==> projects[i].id < nextId)
      && (forall i :: 0 <= i < |accounts| ==> accounts[i].id < nextId)
      && (forall i :: 0 <= i < |content| ==> content[i].id < nextId)
      && (forall i :: 0 <= i < |leads| ==> leads[i].id < nextId)
      && DistinctProjectIds(projects)
      && DistinctContentIds(content)
      && DistinctLeadIds(leads)
    }

    constructor ()
      ensures Valid()
      ensures projects == [] && accounts == [] && content == [] && leads == [] && nextId == 0
    {
      projects, accounts, content, leads, nextId := [], [], [], [], 0;
    }

    // ===== PROJECTS =====

    /** `getProject`: the first project with the id. */
    function GetProject(id: Id): (r: Option<Project>)
      reads this
      ensures r.Some? ==> r.value in projects && r.value.id == id
      ensures r.None? <==> forall i :: 0 <= i < |projects| ==> projects[i].id != id
    {
      Find(projects, ProjectWithId(id))
    }

    /** `createProject`: appends the project under a fresh id, with frequency
        24 when none (or 0) is given and no target languages when none are. */
    method CreateProject(input: NewProject, now: int) returns (p: Project)
      requires Valid()
      modifies this
      ensures Valid()
      ensures p.id == old(nextId) && nextId == old(nextId) + 1
      ensures projects == old(projects) + [p]
      ensures p.name == input.name && p.logo == input.logo && p.vision == input.vision
      ensures p.githubUrl == input.githubUrl && p.createdAt == now && p.lastRun == None
      ensures p.agentFrequency ==
                if input.agentFrequency.Some? && input.agentFrequency.value != 0
                then input.agentFrequency.value else 24
      ensures p.targetLanguages == input.targetLanguages.GetOr([])
      ensures accounts == old(accounts) && content == old(content) && leads == old(leads)
    {
      var freq := if input.agentFrequency.Some? && input.agentFrequency.value != 0
                  then input.agentFrequency.value else 24;
      p := Project(nextId, input.name, input.logo, input.vision, input.githubUrl,
                   freq, input.targetLanguages.GetOr([]), None, now);
      projects := projects + [p];
      nextId := nextId + 1;
    }

    /** `updateProject`: merges the patch into the first project with the id;
        an unknown id changes nothing and yields `None`. */
    method UpdateProject(id: Id, patch: ProjectPatch) returns (r: Option<Project>)
      requires Valid()
      modifies this`projects
      ensures Valid()
      ensures var i := FindIndex(old(projects), ProjectWithId(id));
              && (i < 0 ==> r == None && projects == old(projects))
              && (0 <= i ==> r == Some(MergeProject(old(projects)[i], patch))
                             && projects == old(projects)[i := r.value])
    {
      var i := FindIndex(projects, ProjectWithId(id));
      if i < 0 {
        return None;
      }
      var merged := MergeProject(projects[i], patch);
      projects := projects[i := merged];
      r := Some(merged);
    }

    // ===== SOCIAL ACCOUNTS =====

    function GetSocialByPlatform(projectId: Id, platform: string): Option<SocialAccount>
      reads this
    {
      LookupSocial(accounts, projectId, platform)
    }

    /** `connectSocial`: supersedes every account of the pair with a fresh,
        connected one that expires `expiresIn` seconds from `now`. */
    method ConnectSocial(projectId: Id, platform: string, username: string, accessToken: string,
                         refreshToken: string, expiresIn: int, now: int) returns (a: SocialAccount)
      requires Valid()
      modifies this`accounts, this`nextId
      ensures Valid()
      ensures a == SocialAccount(old(nextId), projectId, platform, username, true, Some(accessToken),
                                 Some(refreshToken), Some(now + expiresIn * 1000), now)
      ensures accounts == Connect(old(accounts), a)
      ensures nextId == old(nextId) + 1
    {
      a := SocialAccount(nextId, projectId, platform, username, true, Some(accessToken),
                         Some(refreshToken), Some(now + expiresIn * 1000), now);
      accounts := Connect(accounts, a);
      nextId := nextId + 1;
    }

    /** `updateSocialAccount`, with the token update its caller sends. */
    method UpdateSocialAccount(id: Id, patch: TokenPatch) returns (r: Option<SocialAccount>)
      requires Valid()
      modifies this`accounts
      ensures Valid()
      ensures var i := FindIndex(old(accounts), AccountWithId(id));
              && (i < 0 ==> r == None && accounts == old(accounts))
              && (0 <= i ==> r == Some(MergeTokens(old(accounts)[i], patch))
                             && accounts == old(accounts)[i := r.value])
    {
      var i := FindIndex(accounts, AccountWithId(id));
      if i < 0 {
        return None;
      }
      var merged := MergeTokens(accounts[i], patch);
      accounts := accounts[i := merged];
      r := Some(merged);
    }

    /** `disconnectSocial`: drops every account of the pair; `false`, and no
        write, when there was none. */
    method DisconnectSocial(projectId: Id, platform: string) returns (removed: bool)
      requires Valid()
      modifies this`accounts
      ensures Valid()
      ensures removed <==> exists i :: 0 <= i < |old(accounts)| && SamePair(projectId, platform)(old(accounts)[i])
      ensures accounts == if removed then Filter(old(accounts), Not(SamePair(projectId, platform))) else old(accounts)
    {
      var filtered := Filter(accounts, Not(SamePair(projectId, platform)));
      FilterKeepsLength(accounts, Not(SamePair(projectId, platform)));
      if |filtered| == |accounts| {
        return false;
      }
      accounts := filtered;
      removed := true;
    }

    // ===== CONTENT =====

    function GetContent(projectId: Id): seq<ContentItem>
      reads this
    {
      Filter(content, ContentOf(projectId))
    }

    /** `addContent`: appends the items, in order, under fresh ids. */
    method AddContent(items: seq<NewContent>, now: int) returns (added: seq<ContentItem>)
      requires Valid()
      modifies this`content, this`nextId
      ensures Valid()
      ensures |added| == |items|
      ensures forall k :: 0 <= k < |items| ==> added[k] == NewContentItem(items[k], old(nextId) + k, now)
      ensures content == old(content) + added
      ensures nextId == old(nextId) + |items|
    {
      var base := nextId;
      added := seq(|items|, k requires 0 <= k < |items| => NewContentItem(items[k], base + k, now));
      content := content + added;
      nextId := nextId + |items|;
    }

    /** `updateContentImage`: sets the image of the first item with the id. */
    method UpdateContentImage(id: Id, imageUrl: string) returns (r: Option<ContentItem>)
      requires Valid()
      modifies this`content
      ensures Valid()
      ensures var i := FindIndex(old(content), ContentWithId(id));
              && (i < 0 ==> r == None && content == old(content))
              && (0 <= i ==> r == Some(old(content)[i].(imageUrl := Some(imageUrl)))
                             && content == old(content)[i := r.value])
    {
      var i := FindIndex(content, ContentWithId(id));
      if i < 0 {
        return None;
      }
      var item := content[i].(imageUrl := Some(imageUrl));
      content := content[i := item];
      r := Some(item);
    }

    /** `updateContentStatus`: sets the status of the first item with the id,
        and its post URL only when a non-empty one is given. */
    method UpdateContentStatus(id: Id, status: ContentStatus, postUrl: Option<string>) returns (r: Option<ContentItem>)
      requires Valid()
      modifies this`content
      ensures Valid()
      ensures var i := FindIndex(old(content), ContentWithId(id));
              && (i < 0 ==> r == None && content == old(content))
              && (0 <= i ==> r == Some(old(content)[i].(status := status,
                                         postUrl := if Present(postUrl) then postUrl else old(content)[i].postUrl))
                             && content == old(content)[i := r.value])
    {
      var i := FindIndex(content, ContentWithId(id));
      if i < 0 {
        return None;
      }
      var item := content[i].(status := status);
      if Present(postUrl) {
        item := item.(postUrl := postUrl);
      }
      content := content[i := item];
      r := Some(item);
    }

    // ===== LEADS =====

    function GetLeads(projectId: Id): seq<Lead>
      reads this
    {
      Filter(leads, LeadsOf(projectId))
    }

    /** `addLeads`: appends the leads, in order, under fresh ids. */
    method AddLeads(items: seq<NewLead>, now: int) returns (added: seq<Lead>)
      requires Valid()
      modifies this`leads, this`nextId
      ensures Valid()
      ensures |added| == |items|
      ensures forall k :: 0 <= k < |items| ==> added[k] == NewLeadRecord(items[k], old(nextId) + k, now)
      ensures leads == old(leads) + added
      ensures nextId == old(nextId) + |items|
    {
      var base := nextId;
      added := seq(|items|, k requires 0 <= k < |items| => NewLeadRecord(items[k], base + k, now));
      leads := leads + added;
      nextId := nextId + |items|;
    }

    /** `updateLead`: merges the patch into the first lead with the id. */
    method UpdateLead(id: Id, patch: LeadPatch) returns (r: Option<Lead>)
      requires Valid()
      modifies this`leads
      ensures Valid()
      ensures var i := FindIndex(old(leads), LeadWithId(id));
              && (i < 0 ==> r == None && leads == old(leads))
              && (0 <= i ==> r == Some(MergeLead(old(leads)[i], patch))
                             && leads == old(leads)[i := r.value])
    {
      var i := FindIndex(leads, LeadWithId(id));
      if i < 0 {
        return None;
      }
      var merged := MergeLead(leads[i], patch);
      leads := leads[i := merged];
      r := Some(merged);
    }
  }
}
