/** Everything the core asks of the outside world: the social platforms'
    HTTP endpoints, the local file system, and the AI text and image
    generators. Each is an oracle: a total function from the request to the
    answer it gets, so that the model's decisions can be stated for every
    possible answer. Every request made is also recorded as a `Call`, in
    order, so that "no request is made" can be stated as an empty trace. */
module External {
  import opened Wrappers
  import opened Records

  /** The JSON body of an OAuth token answer; a missing or falsy member is `None`. */
  datatype TokenBody = TokenBody(accessToken: string, refreshToken: Option<string>, expiresIn: Option<int>)

  /** Instagram's short-lived token answer. */
  datatype ShortToken = ShortToken(accessToken: string, userId: Option<string>)

  /** A profile answer after a code exchange; a member the platform did
      not send, or sent empty, is `None`. Twitter sends `data.username`,
      LinkedIn `name` and `given_name`, Instagram `username` and `id`. */
  datatype Profile = Profile(username: Option<string>, name: Option<string>,
                             givenName: Option<string>, id: Option<string>)

  datatype Tweet = Tweet(id: string, authorId: string, text: string)

  datatype TwitterUser = TwitterUser(id: string, name: string, username: string, profileImageUrl: Option<string>)

  /** The body of a recent-search answer: `data` may be missing, and the
      users come from `includes.users` (empty when absent). */
  datatype SearchBody = SearchBody(data: Option<seq<Tweet>>, users: seq<TwitterUser>)

  datatype IgComment = IgComment(id: string, username: string, text: string)

  /** The ids of an Instagram account's recent media. */
  datatype MediaPost = MediaPost(id: string)

  /** LinkedIn's answer to registering an image upload. */
  datatype UploadSlot = UploadSlot(uploadUrl: Option<string>, asset: Option<string>)

  /** Instagram's `/me` answer while publishing. */
  datatype IgUser = IgUser(userId: Option<string>, id: Option<string>)

  /** One post as the content generator returns it. */
  datatype GeneratedPost = GeneratedPost(
    kind: ContentType, caption: string, hashtags: Option<seq<string>>,
    platform: string, imagePrompt: Option<string>)

  /** One AI-fabricated persona. */
  datatype AiLead = AiLead(name: string, platform: string, profileUrl: string,
                           painPoint: string, suggestedReply: string)

  /** The personas the AI imagines for a project. */
  datatype Audience = Audience(leads: seq<AiLead>)

  /** A request to something outside the core. */
  datatype Call =
    | RefreshTwitter(refreshToken: string)
    | TwitterUpload(accessToken: string, imagePath: string)
    | TwitterPost(accessToken: string, text: string, mediaId: Option<string>)
    | TwitterReply(accessToken: string, sourceId: string, text: string)
    | TwitterSearch(accessToken: string, query: string)
    | LinkedInProfile(accessToken: string)
    | LinkedInRegister(accessToken: string, owner: string)
    | LinkedInUpload(uploadUrl: string, imagePath: string)
    | LinkedInPost(accessToken: string, author: string, text: string, asset: Option<string>)
    | InstagramProfile(accessToken: string)
    | InstagramContainer(userId: string, imageUrl: string, caption: string, accessToken: string)
    | InstagramPublish(userId: string, containerId: string, accessToken: string)
    | InstagramReply(accessToken: string, sourceId: string, text: string)
    | InstagramMedia(accessToken: string)
    | InstagramComments(postId: string, accessToken: string)
    | ExchangeCode(platform: string, code: string)
    | ExchangeLongLived(shortToken: string)
    | FetchProfile(platform: string, accessToken: string)
    | GenerateContent(projectName: string)
    | GenerateImage(prompt: string, contentId: Id)
    | DiscoverAudience(projectName: string)
    | SuggestKeywords(projectName: string)
    | DraftReply(leadName: string, painPoint: string)

  /** The outcome of an operation that talks to the outside world, with the
      requests it made in order. */
  datatype Attempt<+R> = Attempt(result: Result<R, string>, calls: seq<Call>)

  /** The answers of the platforms' endpoints. A `Failure` stands for a
      non-OK status or a thrown request and carries the error text. Where
      the core tells the two apart, the answer says which: LinkedIn's
      upload registration answers `Failure` when the request throws and
      `Success(None)` when it is refused; the image upload and the profile
      fetched after a code exchange have their status ignored, so their
      `Failure` is a thrown request (or an unreadable body). */
  datatype Net = Net(
    fileExists: string -> bool,
    refreshTwitter: string -> Result<TokenBody, string>,
    twitterUpload: (string, string) -> Result<string, string>,
    twitterPost: (string, string, Option<string>) -> Result<string, string>,
    twitterReply: (string, string, string) -> Result<(), string>,
    twitterSearch: (string, string) -> Result<SearchBody, string>,
    linkedInProfile: string -> Result<string, string>,
    linkedInRegister: (string, string) -> Result<Option<UploadSlot>, string>,
    linkedInUpload: (string, string) -> Result<(), string>,
    linkedInPost: (string, string, string, Option<string>) -> Result<string, string>,
    instagramProfile: string -> Result<IgUser, string>,
    instagramContainer: (string, string, string, string) -> Result<string, string>,
    instagramPublish: (string, string, string) -> Result<string, string>,
    instagramReply: (string, string, string) -> Result<(), string>,
    instagramMedia: string -> Result<Option<seq<MediaPost>>, string>,
    instagramComments: (string, string) -> Result<Option<seq<IgComment>>, string>,
    exchangeCode: (string, string, string) -> Result<TokenBody, string>,
    instagramShortToken: string -> Result<ShortToken, string>,
    instagramLongToken: string -> Result<TokenBody, string>,
    fetchProfile: (string, string) -> Result<Profile, string>)

  /** The AI collaborators. A `Failure` is an exception they let escape. */
  datatype Ai = Ai(
    generateContent: (string, string, string, seq<string>, seq<string>) -> Result<seq<GeneratedPost>, string>,
    generateImage: (string, Id, string, ContentType) -> Result<string, string>,
    discoverAudience: (string, string) -> Result<Audience, string>,
    suggestKeywords: (string, string) -> seq<string>,
    draftReply: (string, string, string, string, seq<Message>) -> string)

  /** Everything outside the core, plus the configured public base URL
      (`NEXT_PUBLIC_BASE_URL`, empty when unset). */
  datatype Env = Env(net: Net, ai: Ai, publicBaseUrl: string)
}
