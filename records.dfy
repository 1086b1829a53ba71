/** The four kinds of record the store keeps (projects, social accounts,
    content items, leads), the inputs they are created from and the partial
    updates merged into them. Ids are issued by the store's counter;
    timestamps are milliseconds since the epoch. */
module Records {
  import opened Wrappers

  type Id = nat

  datatype Project = Project(
    id: Id,
    name: string,
    logo: string,
    vision: string,
    githubUrl: string,
    agentFrequency: int,        // hours between cycles
    targetLanguages: seq<string>,
    lastRun: Option<int>,
    createdAt: int)

  /** What `createProject` receives; a falsy frequency or missing language
      list is `None`. */
  datatype NewProject = NewProject(
    name: string,
    logo: string,
    vision: string,
    githubUrl: string,
    agentFrequency: Option<int>,
    targetLanguages: Option<seq<string>>)

  /** The members of `Partial<Project>` that callers send; `None` leaves a
      field as it is. */
  datatype ProjectPatch = ProjectPatch(
    name: Option<string>,
    vision: Option<string>,
    agentFrequency: Option<int>,
    lastRun: Option<int>)

  function MergeProject(p: Project, u: ProjectPatch): Project {
    p.(name := u.name.GetOr(p.name),
       vision := u.vision.GetOr(p.vision),
       agentFrequency := u.agentFrequency.GetOr(p.agentFrequency),
       lastRun := if u.lastRun.Some? then u.lastRun else p.lastRun)
  }

  datatype SocialAccount = SocialAccount(
    id: Id,
    projectId: Id,
    platform: string,
    username: string,
    connected: bool,
    accessToken: Option<string>,
    refreshToken: Option<string>,
    expiresAt: Option<int>,
    connectedAt: int)

  /** The update written after a token refresh: all three members are
      written, so an absent access token in the refresh answer clears it. */
  datatype TokenPatch = TokenPatch(accessToken: Option<string>, refreshToken: string, expiresAt: int)

  function MergeTokens(a: SocialAccount, u: TokenPatch): SocialAccount {
    a.(accessToken := u.accessToken, refreshToken := Some(u.refreshToken), expiresAt := Some(u.expiresAt))
  }

  datatype ContentType = Meme | Feature | Brand

  datatype ContentStatus = Draft | Scheduled | Posted

  datatype ContentItem = ContentItem(
    id: Id,
    projectId: Id,
    kind: ContentType,
    caption: string,
    hashtags: seq<string>,
    platform: string,
    imagePrompt: Option<string>,
    imageUrl: Option<string>,
    status: ContentStatus,
    createdAt: int,
    postUrl: Option<string>)

  datatype NewContent = NewContent(
    projectId: Id,
    kind: ContentType,
    caption: string,
    hashtags: seq<string>,
    platform: string,
    imagePrompt: Option<string>,
    imageUrl: Option<string>,
    status: ContentStatus)

  /** Waiting to be published: a draft or a scheduled item. */
  predicate Pending(c: ContentItem) {
    c.status == Draft || c.status == Scheduled
  }

  datatype LeadStatus = Discovered | Engaged | Interested | Customer

  datatype Role = AiRole | LeadRole

  datatype Message = Message(role: Role, message: string, timestamp: int)

  /** The platform-specific members of a lead's metadata bag; a missing
      bag is the value with every member `None`. */
  datatype LeadMetadata = LeadMetadata(
    sourceId: Option<string>,
    tweetId: Option<string>,
    isSimulated: Option<bool>,
    replySent: Option<bool>,
    replyTime: Option<int>)

  const NoMetadata := LeadMetadata(None, None, None, None, None)

  datatype Lead = Lead(
    id: Id,
    projectId: Id,
    name: string,
    platform: string,
    profileUrl: string,
    painPoint: string,
    status: LeadStatus,
    lastMessage: Option<string>,
    conversations: seq<Message>,
    discoveredAt: int,
    metadata: LeadMetadata)

  datatype NewLead = NewLead(
    projectId: Id,
    name: string,
    platform: string,
    profileUrl: string,
    painPoint: string,
    status: LeadStatus,
    lastMessage: Option<string>,
    conversations: seq<Message>,
    metadata: LeadMetadata)

  datatype LeadPatch = LeadPatch(
    status: Option<LeadStatus>,
    lastMessage: Option<string>,
    conversations: Option<seq<Message>>,
    metadata: Option<LeadMetadata>)

  const EmptyLeadPatch := LeadPatch(None, None, None, None)

  function MergeLead(l: Lead, u: LeadPatch): Lead {
    l.(status := u.status.GetOr(l.status),
       lastMessage := if u.lastMessage.Some? then u.lastMessage else l.lastMessage,
       conversations := u.conversations.GetOr(l.conversations),
       metadata := u.metadata.GetOr(l.metadata))
  }
}
