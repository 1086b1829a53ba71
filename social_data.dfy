/** Finding people who talk about a project's topic on the social platforms
    the project has connected: recent tweets matching its keywords, and
    the commenters on its latest Instagram posts. */
module SocialData {
  import opened Wrappers
  import opened Seqs
  import opened Text
  import opened Records
  import opened External
  import opened Db

  /** A person found on a platform. */
  datatype SocialLead = SocialLead(
    platform: string, name: string, handle: string, profileUrl: string,
    lastInteraction: string, avatarUrl: Option<string>, score: int, sourceId: Option<string>)

  /** The leads a search produced, with the requests it made. */
  datatype Discovery = Discovery(leads: seq<SocialLead>, calls: seq<Call>)

  /** The token a platform search uses: the project's connected account
      for the platform, when it has a non-empty access token. */
  function SearchToken(accounts: seq<SocialAccount>, projectId: Id, platform: string): (t: Option<string>)
    ensures t.Some? ==>
      t.value != "" && LookupSocial(accounts, projectId, platform).Some? &&
      LookupSocial(accounts, projectId, platform).value.accessToken == t
  {
    match LookupSocial(accounts, projectId, platform)
    case None => None
    case Some(a) => if Present(a.accessToken) then a.accessToken else None
  }

  // ----- Twitter -----

  /** The recent-search query: at most the first two keywords as
      alternatives, without retweets, in English. */
  function TwitterQuery(keywords: seq<string>): (q: string)
    ensures StartsWith(q, "(")
  {
    "(" + Join(Take(keywords, 2), " OR ") + ") -is:retweet lang:en"
  }

  /** Keywords past the second never reach the query. */
  lemma TwitterQueryUsesTwoKeywords(keywords: seq<string>, more: seq<string>)
    requires |keywords| >= 2
    ensures TwitterQuery(keywords + more) == TwitterQuery(keywords)
  {
    assert Take(keywords + more, 2) == keywords[..2] == Take(keywords, 2);
  }

  /** The included users by id; a later entry for the same id wins, as
      when building a JavaScript `Map` from the list. */
  function UserIndex(users: seq<TwitterUser>): (m: map<string, TwitterUser>)
    ensures forall i :: 0 <= i < |users| ==> users[i].id in m
    ensures forall id :: id in m ==> m[id].id == id && m[id] in users
  {
    if users == [] then map[]
    else
      var last := users[|users| - 1];
      var m := UserIndex(users[..|users| - 1]);
      assert forall i :: 0 <= i < |users| - 1 ==> users[..|users| - 1][i] == users[i];
      m[last.id := last]
  }

  /** A user whose id no later entry repeats is the one the index keeps. */
  lemma {:induction false} UserIndexLastWins(users: seq<TwitterUser>, i: nat)
    requires i < |users| && forall j :: i < j < |users| ==> users[j].id != users[i].id
    ensures UserIndex(users)[users[i].id] == users[i]
  {
    var n := |users| - 1;
    var front := users[..n];
    var m := UserIndex(front);
    assert UserIndex(users) == m[users[n].id := users[n]];
    if i < n {
      assert front[i] == users[i];
      forall j | i < j < |front|
        ensures front[j].id != front[i].id
      {
        assert front[j] == users[j];
      }
      UserIndexLastWins(front, i);
      assert users[n].id != users[i].id;
      assert m[users[n].id := users[n]][users[i].id] == m[users[i].id];
    } else {
      assert m[users[n].id := users[n]][users[n].id] == users[n];
    }
  }

  /** The lead for a tweet by a known author. */
  function TweetLead(tweet: Tweet, author: TwitterUser): SocialLead {
    SocialLead("twitter", author.name, "@" + author.username, "https://twitter.com/" + author.username,
               "Tweeted: \"" + Take(tweet.text, 50) + "...\"", author.profileImageUrl, 80, Some(tweet.id))
  }

  function AuthorKnown(index: map<string, TwitterUser>): Tweet -> bool {
    (t: Tweet) => t.authorId in index
  }

  /** Each tweet mapped to its author's lead, dropping tweets whose author
      is not among the included users. */
  function JoinAuthors(tweets: seq<Tweet>, index: map<string, TwitterUser>): (r: seq<SocialLead>)
    ensures |r| <= |tweets|
    ensures forall k :: 0 <= k < |r| ==> r[k].platform == "twitter" && r[k].score == 80 && r[k].sourceId.Some?
  {
    if tweets == [] then []
    else
      var rest := JoinAuthors(tweets[1..], index);
      if tweets[0].authorId in index then [TweetLead(tweets[0], index[tweets[0].authorId])] + rest else rest
  }

  /** The joined leads are exactly the tweets with a known author, in
      order: each carries its tweet's id and its author's handle. */
  lemma {:induction false} JoinAuthorsKeepsKnownAuthors(tweets: seq<Tweet>, index: map<string, TwitterUser>)
    ensures var kept := Filter(tweets, AuthorKnown(index));
            var r := JoinAuthors(tweets, index);
            && |r| == |kept|
            && forall k :: 0 <= k < |r| ==>
                 kept[k].authorId in index &&
                 r[k].sourceId == Some(kept[k].id) && r[k].handle == "@" + index[kept[k].authorId].username
  {
    if tweets != [] {
      JoinAuthorsKeepsKnownAuthors(tweets[1..], index);
    }
  }

  /** `searchTwitterLeads`: no token, a failed search or an answer without
      `data` gives no leads. */
  function SearchTwitterLeads(accounts: seq<SocialAccount>, projectId: Id, keywords: seq<string>, net: Net)
    : (d: Discovery)
    ensures SearchToken(accounts, projectId, "twitter").None? ==> d == Discovery([], [])
    ensures SearchToken(accounts, projectId, "twitter").Some? ==>
      var token := SearchToken(accounts, projectId, "twitter").value;
      var answer := net.twitterSearch(token, TwitterQuery(keywords));
      && d.calls == [TwitterSearch(token, TwitterQuery(keywords))]
      && (answer.Failure? || answer.value.data.None? ==> d.leads == [])
      && (answer.Success? && answer.value.data.Some? ==>
            d.leads == JoinAuthors(answer.value.data.value, UserIndex(answer.value.users)))
    ensures forall k :: 0 <= k < |d.leads| ==> d.leads[k].platform == "twitter" && d.leads[k].score == 80
  {
    match SearchToken(accounts, projectId, "twitter")
    case None => Discovery([], [])
    case Some(token) =>
      var query := TwitterQuery(keywords);
      var leads :=
        match net.twitterSearch(token, query)
        case Failure(_) => []
        case Success(body) =>
          if body.data.None? then [] else JoinAuthors(body.data.value, UserIndex(body.users));
      Discovery(leads, [TwitterSearch(token, query)])
  }

  // ----- LinkedIn -----

  /** `getLinkedInLeads`: LinkedIn offers no search, so never any lead. */
  function GetLinkedInLeads(accounts: seq<SocialAccount>, projectId: Id): (d: Discovery)
    ensures d.leads == [] && d.calls == []
  {
    Discovery([], [])
  }

  // ----- Instagram -----

  function CommentLead(c: IgComment): SocialLead {
    SocialLead("instagram", c.username, "@" + c.username, "https://instagram.com/" + c.username,
               "Commented: \"" + Take(c.text, 30) + "...\"", None, 90, Some(c.id))
  }

  /** The index of the last lead with the handle, or -1. */
  function LastWithHandle(leads: seq<SocialLead>, handle: string): (i: int)
    ensures -1 <= i < |leads|
    ensures 0 <= i ==> leads[i].handle == handle && forall j :: i < j < |leads| ==> leads[j].handle != handle
    ensures i < 0 ==> forall j :: 0 <= j < |leads| ==> leads[j].handle != handle
  {
    if leads == [] then -1
    else if leads[|leads| - 1].handle == handle then |leads| - 1
    else LastWithHandle(leads[..|leads| - 1], handle)
  }

  /** The distinct handles in order of first appearance: the key order of
      a JavaScript `Map` filled from the leads. */
  function Handles(leads: seq<SocialLead>): (hs: seq<string>)
    ensures forall a, b :: 0 <= a < b < |hs| ==> hs[a] != hs[b]
    ensures forall i :: 0 <= i < |leads| ==> leads[i].handle in hs
    ensures forall j :: 0 <= j < |hs| ==> LastWithHandle(leads, hs[j]) >= 0
  {
    if leads == [] then []
    else
      var init := leads[..|leads| - 1];
      var hs := Handles(init);
      assert forall i :: 0 <= i < |init| ==> leads[i] == init[i];
      if leads[|leads| - 1].handle in hs then hs else hs + [leads[|leads| - 1].handle]
  }

  /** One lead per handle, in order of the handle's first appearance and
      carrying the handle's last lead, as `new Map()` filled by `set`
      leaves them. */
  predicate DedupedByHandle(leads: seq<SocialLead>, r: seq<SocialLead>) {
    var hs := Handles(leads);
    |r| == |hs| &&
    forall j :: 0 <= j < |r| ==> r[j].handle == hs[j] && r[j] == leads[LastWithHandle(leads, hs[j])]
  }

  function HasHandle(handle: string): SocialLead -> bool {
    (l: SocialLead) => l.handle == handle
  }

  lemma LastWithHandleAppend(seen: seq<SocialLead>, l: SocialLead, h: string)
    ensures LastWithHandle(seen + [l], h) == if l.handle == h then |seen| else LastWithHandle(seen, h)
  {
    assert (seen + [l])[..|seen|] == seen;
  }

  lemma HandlesAppend(seen: seq<SocialLead>, l: SocialLead)
    ensures Handles(seen + [l]) == if l.handle in Handles(seen) then Handles(seen) else Handles(seen) + [l.handle]
  {
    assert (seen + [l])[..|seen|] == seen;
  }

  /** A lead with a new handle is appended. */
  lemma DedupAppendNew(seen: seq<SocialLead>, l: SocialLead, r: seq<SocialLead>)
    requires DedupedByHandle(seen, r)
    requires l.handle !in Handles(seen)
    ensures DedupedByHandle(seen + [l], r + [l])
  {
    var all := seen + [l];
    var hs := Handles(seen);
    HandlesAppend(seen, l);
    var hs' := hs + [l.handle];
    var r' := r + [l];
    forall k | 0 <= k < |r'|
      ensures r'[k].handle == hs'[k] && r'[k] == all[LastWithHandle(all, hs'[k])]
    {
      LastWithHandleAppend(seen, l, hs'[k]);
      if k < |r| {
        assert all[LastWithHandle(seen, hs[k])] == seen[LastWithHandle(seen, hs[k])];
      }
    }
  }

  /** A lead with a handle seen before replaces that handle's lead in place. */
  lemma DedupReplace(seen: seq<SocialLead>, l: SocialLead, r: seq<SocialLead>, j: nat)
    requires DedupedByHandle(seen, r)
    requires j < |r| && r[j].handle == l.handle
    ensures DedupedByHandle(seen + [l], r[j := l])
  {
    var all := seen + [l];
    var hs := Handles(seen);
    HandlesAppend(seen, l);
    var r' := r[j := l];
    forall k | 0 <= k < |r'|
      ensures r'[k].handle == hs[k] && r'[k] == all[LastWithHandle(all, hs[k])]
    {
      LastWithHandleAppend(seen, l, hs[k]);
      if k != j {
        assert all[LastWithHandle(seen, hs[k])] == seen[LastWithHandle(seen, hs[k])];
      }
    }
  }

  /** Keeps one lead per handle: a handle seen before has its lead replaced
      in place, a new handle is appended. */
  method DedupByHandle(leads: seq<SocialLead>) returns (r: seq<SocialLead>)
    ensures DedupedByHandle(leads, r)
    ensures forall a, b :: 0 <= a < b < |r| ==> r[a].handle != r[b].handle
    ensures forall i :: 0 <= i < |leads| ==> exists j :: 0 <= j < |r| && r[j].handle == leads[i].handle
  {
    r := [];
    for i := 0 to |leads|
      invariant DedupedByHandle(leads[..i], r)
    {
      assert leads[..i + 1] == leads[..i] + [leads[i]];
      var j := FindIndex(r, HasHandle(leads[i].handle));
      if j < 0 {
        DedupAppendNew(leads[..i], leads[i], r);
        r := r + [leads[i]];
      } else {
        DedupReplace(leads[..i], leads[i], r, j);
        r := r[j := leads[i]];
      }
    }
    assert leads[..|leads|] == leads;
    forall i | 0 <= i < |leads|
      ensures exists j :: 0 <= j < |r| && r[j].handle == leads[i].handle
    {
      var hs := Handles(leads);
      var j :| 0 <= j < |hs| && hs[j] == leads[i].handle;
      assert r[j].handle == leads[i].handle;
    }
  }

  /** The leads from the comments on the posts, in order: one per
      comment, a post whose answer has no data adding none; `None` from the
      first failed comment fetch on. */
  function CommentLeads(posts: seq<MediaPost>, token: string, net: Net): (r: Option<seq<SocialLead>>)
    ensures r.Some? ==>
      forall k :: 0 <= k < |r.value| ==>
        r.value[k].platform == "instagram" && r.value[k].score == 90 && r.value[k].sourceId.Some?
    decreases |posts|
  {
    if posts == [] then Some([])
    else
      match CommentLeads(posts[..|posts| - 1], token, net)
      case None => None
      case Some(found) =>
        match net.instagramComments(posts[|posts| - 1].id, token)
        case Failure(_) => None
        case Success(data) => Some(found + (if data.Some? then Map(data.value, CommentLead) else []))
  }

  /** The comment requests: one per post, in order, up to and including the
      first one that fails. */
  function CommentCalls(posts: seq<MediaPost>, token: string, net: Net): (r: seq<Call>)
    ensures |r| <= |posts|
    ensures forall k :: 0 <= k < |r| ==> r[k] == InstagramComments(posts[k].id, token)
    ensures CommentLeads(posts, token, net).Some? ==> |r| == |posts|
    decreases |posts|
  {
    if posts == [] then []
    else
      var prefix := posts[..|posts| - 1];
      if CommentLeads(prefix, token, net).None? then CommentCalls(prefix, token, net)
      else CommentCalls(prefix, token, net) + [InstagramComments(posts[|posts| - 1].id, token)]
  }

  /** One more post whose comments were fetched extends the leads and the
      requests. */
  lemma CommentStep(posts: seq<MediaPost>, token: string, net: Net, p: nat)
    requires p < |posts| && CommentLeads(posts[..p], token, net).Some?
    requires net.instagramComments(posts[p].id, token).Success?
    ensures var data := net.instagramComments(posts[p].id, token).value;
            CommentLeads(posts[..p + 1], token, net) ==
              Some(CommentLeads(posts[..p], token, net).value + (if data.Some? then Map(data.value, CommentLead) else []))
    ensures CommentCalls(posts[..p + 1], token, net) ==
              CommentCalls(posts[..p], token, net) + [InstagramComments(posts[p].id, token)]
  {
    var q := posts[..p + 1];
    assert q[..|q| - 1] == posts[..p] && q[|q| - 1] == posts[p];
  }

  /** A failed comment fetch ends the search: no leads, and no request
      after it. */
  lemma {:induction false} FailedFetchStops(posts: seq<MediaPost>, token: string, net: Net, j: nat)
    requires j < |posts| && CommentLeads(posts[..j], token, net).Some?
    requires net.instagramComments(posts[j].id, token).Failure?
    ensures CommentLeads(posts, token, net).None?
    ensures CommentCalls(posts, token, net) == CommentCalls(posts[..j], token, net) + [InstagramComments(posts[j].id, token)]
    decreases |posts|
  {
    var prefix := posts[..|posts| - 1];
    if |posts| == j + 1 {
      assert prefix == posts[..j];
    } else {
      assert prefix[..j] == posts[..j] && prefix[j] == posts[j];
      FailedFetchStops(prefix, token, net, j);
    }
  }

  /** The leads from the comments on the given posts, in order; `None`
      when a comment fetch fails, which abandons the whole search. */
  method CollectComments(posts: seq<MediaPost>, token: string, net: Net)
    returns (leads: Option<seq<SocialLead>>, calls: seq<Call>)
    ensures leads == CommentLeads(posts, token, net)
    ensures calls == CommentCalls(posts, token, net)
    ensures |calls| <= |posts|
    ensures forall k :: 0 <= k < |calls| ==> calls[k] == InstagramComments(posts[k].id, token)
    ensures leads.Some? ==>
      |calls| == |posts| &&
      forall k :: 0 <= k < |leads.value| ==>
        leads.value[k].platform == "instagram" && leads.value[k].score == 90 && leads.value[k].sourceId.Some?
  {
    var found: seq<SocialLead> := [];
    calls := [];
    for p := 0 to |posts|
      invariant CommentLeads(posts[..p], token, net) == Some(found)
      invariant calls == CommentCalls(posts[..p], token, net)
    {
      calls := calls + [InstagramComments(posts[p].id, token)];
      var answer := net.instagramComments(posts[p].id, token);
      if answer.Failure? {
        FailedFetchStops(posts, token, net, p);
        return None, calls;
      }
      CommentStep(posts, token, net, p);
      var here := if answer.value.Some? then Map(answer.value.value, CommentLead) else [];
      found := found + here;
    }
    assert posts[..|posts|] == posts;
    leads := Some(found);
  }

  /** What the Instagram search promises: nothing without a token; the
      media request first, then the comment requests for the first two
      posts; no leads when the media request fails or has no data, or when
      a comment fetch fails; otherwise the comment leads with one lead per
      handle; leads with distinct handles, all Instagram leads of score 90. */
  predicate InstagramFound(accounts: seq<SocialAccount>, projectId: Id, net: Net, d: Discovery) {
    && (SearchToken(accounts, projectId, "instagram").None? ==> d == Discovery([], []))
    && (SearchToken(accounts, projectId, "instagram").Some? ==>
          var token := SearchToken(accounts, projectId, "instagram").value;
          var media := net.instagramMedia(token);
          && 1 <= |d.calls| <= 3 && d.calls[0] == InstagramMedia(token)
          && (media.Failure? || media.value.None? ==> d.leads == [] && |d.calls| == 1)
          && (media.Success? && media.value.Some? ==>
                var posts := Take(media.value.value, 2);
                var comments := CommentLeads(posts, token, net);
                && d.calls == [InstagramMedia(token)] + CommentCalls(posts, token, net)
                && (comments.None? ==> d.leads == [])
                && (comments.Some? ==> DedupedByHandle(comments.value, d.leads))))
    && (forall a, b :: 0 <= a < b < |d.leads| ==> d.leads[a].handle != d.leads[b].handle)
    && (forall k :: 0 <= k < |d.leads| ==> d.leads[k].platform == "instagram" && d.leads[k].score == 90)
  }

  /** `getInstagramLeads`: the commenters on the two most recent posts,
      one lead per handle; any failure gives no leads. */
  method GetInstagramLeads(accounts: seq<SocialAccount>, projectId: Id, net: Net) returns (d: Discovery)
    ensures InstagramFound(accounts, projectId, net, d)
  {
    var token := SearchToken(accounts, projectId, "instagram");
    if token.None? {
      return Discovery([], []);
    }
    var media := net.instagramMedia(token.value);
    if media.Failure? || media.value.None? {
      return Discovery([], [InstagramMedia(token.value)]);
    }
    var collected, commentCalls := CollectComments(Take(media.value.value, 2), token.value, net);
    var calls := [InstagramMedia(token.value)] + commentCalls;
    if collected.None? {
      return Discovery([], calls);
    }
    var unique := DedupByHandle(collected.value);
    forall k | 0 <= k < |unique|
      ensures unique[k].platform == "instagram" && unique[k].score == 90
    {
      var i := LastWithHandle(collected.value, Handles(collected.value)[k]);
      assert unique[k] == collected.value[i];
    }
    d := Discovery(unique, calls);
  }

  /** What the social search found: Twitter's leads and requests followed
      by those of the Instagram search, which found `instagram`. */
  predicate SocialFound(accounts: seq<SocialAccount>, projectId: Id, keywords: seq<string>, net: Net,
                        d: Discovery, instagram: Discovery) {
    && InstagramFound(accounts, projectId, net, instagram)
    && var twitter := SearchTwitterLeads(accounts, projectId, keywords, net);
       && d.leads == twitter.leads + instagram.leads
       && d.calls == twitter.calls + instagram.calls
  }

  /** `discoverSocialLeads`: Twitter's leads, then LinkedIn's, then
      Instagram's; `instagram` is what the Instagram search found. */
  method DiscoverSocialLeads(accounts: seq<SocialAccount>, projectId: Id, keywords: seq<string>, net: Net)
    returns (d: Discovery, ghost instagram: Discovery)
    ensures SocialFound(accounts, projectId, keywords, net, d, instagram)
    ensures var twitter := SearchTwitterLeads(accounts, projectId, keywords, net).leads;
      && twitter <= d.leads
      && forall k :: |twitter| <= k < |d.leads| ==> d.leads[k].platform == "instagram"
    ensures SearchToken(accounts, projectId, "twitter").None? && SearchToken(accounts, projectId, "instagram").None? ==>
      d == Discovery([], [])
  {
    var twitter := SearchTwitterLeads(accounts, projectId, keywords, net);
    var linkedIn := GetLinkedInLeads(accounts, projectId);
    assert twitter.leads + linkedIn.leads == twitter.leads && twitter.calls + linkedIn.calls == twitter.calls;
    var found := GetInstagramLeads(accounts, projectId, net);
    d := Discovery(twitter.leads + linkedIn.leads + found.leads,
                   twitter.calls + linkedIn.calls + found.calls);
    instagram := found;
    TailIsInstagram(twitter.leads, found.leads);
  }

  lemma TailIsInstagram(front: seq<SocialLead>, back: seq<SocialLead>)
    requires forall k :: 0 <= k < |back| ==> back[k].platform == "instagram"
    ensures front <= front + back
    ensures forall k :: |front| <= k < |front + back| ==> (front + back)[k].platform == "instagram"
  {
    forall k | |front| <= k < |front + back|
      ensures (front + back)[k].platform == "instagram"
    {
      assert (front + back)[k] == back[k - |front|];
    }
  }
}
