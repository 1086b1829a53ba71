# OpenDream marketing agent — a Dafny model

OpenDream runs an autonomous marketing agent for software projects. For each
project it keeps drafts topped up and draws their images. It publishes one
ready draft per cycle to Twitter, LinkedIn or Instagram. It also discovers
people talking about the project's topic and replies to one of them. A
scheduler runs the cycle when a project is due. A few HTTP routes let the
user trigger the same steps by hand: engage or reply to a lead, draw images,
and post content.

This project models that core in Dafny:

- `store.dfy` (`Db`): the record store as a `Store` class. Its `seq` fields
  hold the projects, social accounts, content items and leads. Each method is
  one read-modify-write of the source's JSON arrays.
- `records.dfy`, `external.dfy`, `http.dfy`, `wrappers.dfy`, `seqs.dfy`,
  `text.dfy`: the record types and their patches. Also every outside
  collaborator as an oracle, route responses, and the sequence and string
  operations the source uses.
- `oauth.dfy` (`OAuth`): the state dictionary as a `StateStore` class, the
  three code exchanges, and the Twitter refresh.
- `poster.dfy` (`Poster`): the token-freshness rule, post text, Instagram
  image URLs, the three publishers, dispatch, the auto-poster and replies.
- `social_data.dfy` (`SocialData`) and `audience.dfy` (`Audience`): lead
  discovery and shaping.
- `agent.dfy` (`Agent`): the five-step cycle.
- `runner.dfy` (`Runner`): the due rule and the sweep.
- `leads_route.dfy`, `leads_reply_route.dfy`, `generate_image_route.dfy`,
  `content_post_route.dfy`: the four route handlers.

The outside world is a parameter, `Env`. It holds the platforms' endpoints
(`Net`), the AI collaborators (`Ai`) and the configured public base URL.
Each endpoint is a total function from request to answer, so every
property holds for every possible answer. Effectful operations also return
the requests they made, in order, as a `seq<Call>`. "No request is made"
is then the statement `calls == []`. Time is an `int` count of
milliseconds, passed in as `now`. The store hands out ids from a counter
(`Store.nextId`) in place of random UUIDs. `Store.Valid()` keeps project,
content and lead ids distinct. JavaScript truthiness of an optional string
is `Present` (present and non-empty).

## Model

| member | source | states |
|---|---|---|
| Db.LookupSocial | src/lib/db.ts:96-100 | a found account belongs to the project, has the platform and is connected; nothing is found exactly when no account of the pair is connected |
| Db.ConnectLeavesOneAccount | src/lib/db.ts:110-127 | after a connect the (project, platform) pair has exactly one account, the new one |
| Db.ConnectKeepsOtherPairs | src/lib/db.ts:110-127 | a connect leaves the accounts of every other pair as they were, in order |
| Db.ConnectThenLookup | src/lib/db.ts:96-127 | after a connect, looking the pair up finds the new account |
| Db.FilterKeepsLength | src/lib/db.ts:142-145 | the filtered list keeps the input's length exactly when no account matched, which is how a disconnect detects that nothing was removed |
| Db.DisconnectThenLookup | src/lib/db.ts:140-147 | after a disconnect, the lookup of the pair finds nothing |
| Db.Store.GetProject | src/lib/db.ts:52-54 | a found project is stored and has the id; none is found exactly when no stored project has it |
| Db.Store.CreateProject | src/lib/db.ts:56-68 | appends one project under a fresh id, with frequency 24 when none or 0 is given and no languages when none are given; the other lists are unchanged |
| Db.Store.UpdateProject | src/lib/db.ts:70-77 | an unknown id gives no result and changes nothing; otherwise the patch is merged into that project only |
| Db.Store.ConnectSocial | src/lib/db.ts:102-129 | drops every account of the pair and appends a connected one that expires `expiresIn` seconds after `now` |
| Db.Store.UpdateSocialAccount | src/lib/db.ts:131-138 | an unknown id gives no result and changes nothing; otherwise the tokens are merged into that account only |
| Db.Store.DisconnectSocial | src/lib/db.ts:140-148 | the result is true exactly when some account of the pair existed; those accounts are then dropped, otherwise nothing changes |
| Db.Store.AddContent | src/lib/db.ts:170-180 | appends one item per input, in input order, under consecutive fresh ids, and returns them; existing items are untouched |
| Db.Store.UpdateContentImage | src/lib/db.ts:182-189 | an unknown id changes nothing; otherwise only the image URL of that one item changes |
| Db.Store.UpdateContentStatus | src/lib/db.ts:191-199 | an unknown id changes nothing; otherwise that item's status is set, and its post URL only when a non-empty one is given |
| Db.Store.AddLeads | src/lib/db.ts:220-230 | appends one lead per input, in input order, under consecutive fresh ids, and returns them; existing leads are untouched |
| Db.Store.UpdateLead | src/lib/db.ts:232-239 | an unknown id gives no result and changes nothing; otherwise the patch is merged into that lead only |
| OAuth.StripStateSuffix | src/lib/oauth.ts:229 | a trailing "#_" is removed and nothing else; a key without it is kept |
| OAuth.RefreshTwitterToken | src/lib/oauth.ts:286-317 | fails exactly when the token endpoint fails, with the endpoint's text; the access token is the answer's; the old refresh token is kept when the answer has none; a non-zero lifetime in the answer is kept, and a missing or zero one becomes 7200 s |
| OAuth.StateStore.SaveState | src/lib/oauth.ts:17-22 | the key then maps to the saved state and every other key is unchanged |
| OAuth.StateStore.DeleteState | src/lib/oauth.ts:31-37 | the key then maps to nothing and every other key is unchanged |
| OAuth.StateStore.ExchangeTwitterCode | src/lib/oauth.ts:73-123 | a missing state, or one for another platform, fails with "Invalid state" before any request; after a successful token exchange the profile is fetched, and a thrown profile fetch fails the exchange; only a successful exchange deletes the state; the refresh token defaults to "" and the lifetime to 7200 s |
| OAuth.StateStore.ExchangeLinkedInCode | src/lib/oauth.ts:144-189 | the same state check; a failed token exchange or a thrown userinfo fetch fails and keeps the state; only success deletes it; the lifetime defaults to 5184000 s; the username falls back from name to given name to "LinkedIn User" |
| OAuth.StateStore.ExchangeInstagramCode | src/lib/oauth.ts:217-284 | the same state check; a failed short-lived or long-lived exchange, or a thrown profile fetch, fails and keeps the state; only success deletes it; the project comes from the entry without the "#_" suffix when that entry exists; the refresh token is always empty and the lifetime defaults to 5184000 s |
| Poster.RefreshBoundary | src/lib/poster.ts:18 | a token is stale exactly from five minutes before its expiry on; an account without an expiry is never refreshed |
| Poster.NormalizeHashtag | src/lib/poster.ts:64 | the result starts with '#': a tag that already starts with '#' is kept as it is, any other tag gets one '#' put in front |
| Poster.PostText | src/lib/poster.ts:64 | the post text starts with the caption followed by a blank line |
| Poster.PostTextRecoversHashtags | src/lib/poster.ts:64 | splitting what follows the blank line on spaces gives back each hashtag, in order, each starting with '#' |
| Poster.ResolveImageUrl | src/lib/poster.ts:221-223 | a URL starting with "http" is kept as it is; anything else is put after the base URL |
| Poster.ResolveImageUrlIdempotent | src/lib/poster.ts:221-223 | resolving an already resolved URL changes nothing when the base URL is absolute |
| Poster.SendTweet | src/lib/poster.ts:40-76 | no access token fails with no request; otherwise one tweet with the post text is sent; it carries media exactly when a local image was uploaded with a non-empty id, so a failed upload degrades to text only |
| Poster.PostToTwitter | src/lib/poster.ts:13-81 | a fresh token tweets directly; a stale token without a refresh token fails with no request; a failed refresh fails with "reconnect"; a successful refresh is stored on the account and used for the tweet |
| Poster.LinkedInAsset | src/lib/poster.ts:101-144 | no image on disk means no request and no asset; a thrown registration fails; a refused one leaves the post text-only; an accepted one gives its asset, after uploading the image when an upload URL is given, and a thrown upload fails |
| Poster.PostToLinkedIn | src/lib/poster.ts:87-192 | a failed profile fetch stops the post; a thrown registration or upload fails the post with its message; otherwise the post goes out as the member's urn with the post text and the registered asset, and succeeds exactly when the share call does |
| Poster.PostToInstagram | src/lib/poster.ts:198-272 | no image fails before any request; a failed profile, container or publish request fails with that stage's message and makes no later request; when all three succeed the post URL is the published id's; the image URL is resolved against the base URL |
| Poster.PostContent | src/lib/poster.ts:289-326 | no connected account fails with "No connected …" and no request; an unknown platform fails with "Unsupported platform"; otherwise the answer and requests are those of the platform's publisher (`PostOutcome`), including a stale Twitter token's refresh; the result always names the item and the platform |
| Poster.PlatformKeyIsLowerCase | src/lib/poster.ts:339-346 | the platform key table agrees with lower-casing, so the key is always the lower-cased name |
| Poster.AutoPostTurn | src/lib/poster.ts:335-353 | one item, as `AutoStep` says: a posted item or one without a connected account adds no result, no request and no store change; any other item adds one result holding `postContent`'s answer (`PostOutcome`), its requests, and `postContent`'s store change (`AccountsAfter`) |
| Poster.AutoPostedReports | src/lib/poster.ts:331-360 | the results of an auto-poster run are one per unposted item with a connected account for its platform key, in content order, naming that item and key; every account keeps its route |
| Poster.RunStepsReports | src/lib/poster.ts:335-356 | for any step that reports its item exactly when it is attempted and keeps routes, the run over the items reports exactly the attempted items in order |
| Poster.AutoPostAllContent | src/lib/poster.ts:331-360 | the results, the requests and the stored accounts are those of `AutoPosted` over the project's content: each item in order against the accounts the earlier items left, so a refreshed Twitter token is used by later tweets; hence one result per unposted item with a connected account, in order |
| Poster.PostReply | src/lib/poster.ts:413-428 | the account is looked up under the lower-cased platform; no account or a platform other than twitter and instagram fails with no request; on twitter and instagram exactly one reply request is made, and the reply succeeds exactly when it does |
| Poster.ReplyNeverSucceedsForX | src/lib/poster.ts:413-428 | a lead whose platform lower-cases to "x" can never be replied to, and no request is made for it |
| SocialData.SearchToken | src/lib/social-data.ts:20-21 | a search token is the non-empty access token of the project's connected account for the platform |
| SocialData.TwitterQuery | src/lib/social-data.ts:23-25 | the query opens with the parenthesised alternatives |
| SocialData.TwitterQueryUsesTwoKeywords | src/lib/social-data.ts:23 | keywords past the second never change the query |
| SocialData.UserIndex | src/lib/social-data.ts:47 | every included user's id is a key, and each key maps to an included user with that id |
| SocialData.UserIndexLastWins | src/lib/social-data.ts:47 | when several users share an id, the index keeps the last of them |
| SocialData.JoinAuthors | src/lib/social-data.ts:49-62 | at most one lead per tweet; every lead is a Twitter lead of score 80 with a source id |
| SocialData.JoinAuthorsKeepsKnownAuthors | src/lib/social-data.ts:49-62 | the leads are exactly the tweets whose author was included, in order, each with the tweet's id and "@" plus the author's username |
| SocialData.SearchTwitterLeads | src/lib/social-data.ts:19-68 | no token means no lead and no request; a failed search or an answer without data gives no leads; otherwise the joined leads |
| SocialData.GetLinkedInLeads | src/lib/social-data.ts:74-84 | never any lead, and no request |
| SocialData.DedupByHandle | src/lib/social-data.ts:122-125 | one lead per handle, in order of the handle's first appearance, each the handle's last lead; every input handle is kept |
| SocialData.CommentLeads | src/lib/social-data.ts:101-120 | the leads of the comment loop: every lead is an Instagram lead of score 90 with a source id |
| SocialData.CommentCalls | src/lib/social-data.ts:101-120 | the comment requests: the k-th is for the k-th post; all posts are asked when no fetch fails |
| SocialData.FailedFetchStops | src/lib/social-data.ts:101-105 | a fetch that fails after the earlier ones succeeded gives no leads at all, and no request follows it |
| SocialData.CollectComments | src/lib/social-data.ts:101-120 | the leads and requests are exactly `CommentLeads` and `CommentCalls`: the leads of each successful answer appended in post order, none on a failure; one comment request per post, in order, ending at the first failed fetch |
| SocialData.GetInstagramLeads | src/lib/social-data.ts:90-131 | no token means no request; a failed or empty media answer gives no leads and only the media request; otherwise the requests are the media request then the comment requests for the first two posts; a failed comment fetch gives no leads; otherwise the leads are the comment leads deduplicated by handle, the last one per handle kept |
| SocialData.DiscoverSocialLeads | src/lib/social-data.ts:137-145 | `SocialFound`: the leads are exactly `SearchTwitterLeads`'s followed by what the Instagram search found (`InstagramFound`; LinkedIn adds none), and the requests are Twitter's followed by Instagram's; without Twitter and Instagram tokens there are no leads and no requests |
| Audience.SearchKeywords | src/lib/audience.ts:16-24 | suggested keywords are used as they are; without them, the project name followed by at most two vision words longer than four characters |
| Audience.FallbackKeywordsInOrder | src/lib/audience.ts:19-23 | the fallback vision words are the first long words of the vision, in the vision's order |
| Audience.RealLead | src/lib/audience.ts:40-64 | a discovered, non-simulated lead with the source's id; the drafted reply is its last message and the second of its two AI messages |
| Audience.SimulatedLead | src/lib/audience.ts:67-85 | a discovered, simulated lead with no source id and exactly one AI message, the suggested reply |
| Audience.DraftedLeads | src/lib/audience.ts:30-65 | one real lead per platform lead, in order, each with the reply drafted for it |
| Audience.PersonaLeads | src/lib/audience.ts:67-85 | one simulated lead per AI persona, in order |
| Audience.SavedInOrder | src/lib/audience.ts:90-91 | saving real leads then personas gives one saved lead per input: each real lead in full, in order, then each simulated one in full, all under consecutive ids, discovered and of the project |
| Audience.DiscoverAndSaveLeads | src/lib/audience.ts:5-94 | an unknown project fails with "Project not found" and no request; otherwise the requests are the persona request, the keyword request, the social search's requests (`SocialFound` with the project's keywords) and one draft request per found lead, in order; a persona answer without leads fails after all of them and saves nothing; success appends exactly the returned leads: each found lead drafted in full (`DraftedLeads`) under consecutive ids, then each persona in full |
| Agent.DraftsOf | src/lib/agent.ts:65-75 | one new item per generated post, in order |
| Agent.SavedDrafts | src/lib/agent.ts:65-75 | every saved item belongs to the project and is a draft |
| Agent.AddedDraftsArePending | src/lib/agent.ts:65-76 | appending drafts of the project adds exactly them to the project's pending items |
| Agent.SaveDrafts | src/lib/agent.ts:65-76 | the store gains the drafts at its end, and the project's pending count grows by the number of posts |
| Agent.GenerateContentStep | src/lib/agent.ts:44-84 | with three or more pending items nothing is asked; otherwise one generation request; a failure adds one "Content Gen" error and saves nothing; success saves every post as a draft and counts them |
| Agent.Imaged | src/lib/agent.ts:87-97 | only a pending item of the project without an image changes, and only when an image is drawn; its id, project and status stay |
| Agent.DrawImage | src/lib/agent.ts:94-97 | asks for the item's image with its prompt, or its caption when there is none, and stores it only when one is drawn |
| Agent.ImageTurn | src/lib/agent.ts:92-102 | one item: one request; a success is counted, a failure is listed as an "Image Gen" error, and the loop goes on |
| Agent.GenerateImagesStep | src/lib/agent.ts:86-102 | one request per unimaged pending item of the project, in order; drawn plus failed is the number of items; every stored item ends as `Imaged` says |
| Agent.PostItem | src/lib/agent.ts:112-113 | the answer and requests are the publisher's (`Poster.PostOutcome`); no account and an unknown platform fail with no request; success only on a platform the publisher serves |
| Agent.PublishStep | src/lib/agent.ts:104-122 | at most one item is published: the project's first draft with an image, through its lower-cased platform; the requests are the publisher's, and the item is published exactly when the publisher succeeds, marked posted with the post URL; a failure lists one "Post" error with the publisher's message and changes no content |
| Agent.EngageStep | src/lib/agent.ts:135-174 | only the first discovered, non-simulated lead is considered, and only when it has a source or tweet id and is on twitter or x; the reply is its last message or a drafted one; success engages it |
| Agent.CreatePhase | src/lib/agent.ts:44-102 | steps 1 and 2 report no critical error |
| Agent.PublishPhase | src/lib/agent.ts:104-122 | step 3 publishes at most once and reports no critical error |
| Agent.DiscoveryStep | src/lib/agent.ts:124-133 | step 4 adds as many leads as it reports discovered; a failure adds nothing and lists one "Discovery" error |
| Agent.AudiencePhase | src/lib/agent.ts:124-174 | step 4 adds as many leads as it reports discovered; step 5 engages at most one; no critical error |
| Agent.RunAgentCycle | src/lib/agent.ts:26-186 | a missing project gives exactly one "Critical" error, all counters 0, no request and no change; otherwise only the project's last run is stamped, at most one post and one engagement, and no critical error |
| Runner.DueBoundary | scripts/agent-runner.ts:40-44 | a project is due from its next-run instant on, not one millisecond earlier, and once due it stays due |
| Runner.DailyProjectRunsDaily | scripts/agent-runner.ts:40-44 | a project with frequency 24 that last ran at t is due exactly from t + 86400000 ms on |
| Runner.JustRunIsNotDue | scripts/agent-runner.ts:40-44 | a project with a positive frequency that has just run is not due, and its next run is at least an hour away |
| Runner.RunCycleSafe | scripts/agent-runner.ts:54-70 | an unknown project changes nothing; otherwise the cycle runs and stamps the project's last run |
| Runner.SweepTurn | scripts/agent-runner.ts:39-51 | one project of the sweep: its cycle runs exactly when it is due |
| Runner.CheckAndRunProjects | scripts/agent-runner.ts:33-52 | the cycles run for exactly the due projects, in list order, and exactly those projects get a new last run |
| LeadsRoute.EngagedLead | src/app/api/leads/route.ts:66-72 | engaging appends exactly one AI message with the reply, makes it the last message, sets "engaged" and marks the reply sent, keeping the rest of the lead and its metadata |
| LeadsRoute.FindInProject | src/app/api/leads/route.ts:34-35 | looking the lead up among the project's leads finds the stored lead exactly when it belongs to the project |
| LeadsRoute.EngageOutcome | src/app/api/leads/route.ts:37-73 | without a source id the lead is engaged with no platform request; with one, the reply is posted first and a failure stops the engagement with "Failed to post reply: …" |
| LeadsRoute.BuildUpdates | src/app/api/leads/route.ts:29-74 | the update is the body's status alone unless a reply is asked for in an existing project the lead belongs to |
| LeadsRoute.PatchLead | src/app/api/leads/route.ts:20-86 | no lead id gives 400 and an unknown lead 404, both with no change; a failed reply gives 500 and leaves the lead unchanged; otherwise 200 with the merged lead stored |
| LeadsReplyRoute.ReplyError | src/app/api/leads/reply/route.ts:35 | the error text is never empty and is the platform's own text when it has one |
| LeadsReplyRoute.ReplyToLead | src/app/api/leads/reply/route.ts:5-75 | missing fields give 400, an unknown lead 404, and a lead without a source id 400, all before any request; a failed reply gives 500; only a successful reply changes the lead |
| LeadsReplyRoute.RepliedLead | src/app/api/leads/reply/route.ts:57-67 | a sent reply engages the lead and appends exactly the message, as an AI message, leaving the last message and the metadata alone |
| GenerateImageRoute.AfterImages | src/app/api/content/generate-image/route.ts:36-61 | drawing changes only an item's image URL, and never an item that is not a target |
| GenerateImageRoute.DrawnTargetGetsImage | src/app/api/content/generate-image/route.ts:38-46 | a target whose image is drawn ends up with that image |
| GenerateImageRoute.NamedTargetOnly | src/app/api/content/generate-image/route.ts:22-23 | with a content id, no item with another id is touched |
| GenerateImageRoute.ImagedItemsUntouched | src/app/api/content/generate-image/route.ts:22-24 | without a content id, an item that already has an image is never touched |
| GenerateImageRoute.DrawTarget | src/app/api/content/generate-image/route.ts:37-60 | one target: one request, one result, and the image stored only when one is drawn |
| GenerateImageRoute.DrawAll | src/app/api/content/generate-image/route.ts:33-61 | one result and one request per target, in order; a failure is reported with an empty URL and later targets still run |
| GenerateImageRoute.GenerateImages | src/app/api/content/generate-image/route.ts:5-71 | no project id gives 400 and an unknown project 404; no target gives 200 with nothing drawn and no request; otherwise 201 with one result per target |
| ContentPostRoute.AfterPosts | src/app/api/content/post/route.ts:33-37 | only status and post URL change; an item with no successful result is unchanged; one with a successful result ends up posted |
| ContentPostRoute.MarkResult | src/app/api/content/post/route.ts:33-36 | one result: only a success marks its item |
| ContentPostRoute.MarkAll | src/app/api/content/post/route.ts:33-37 | every stored item ends as `AfterPosts` says for the results in order |
| ContentPostRoute.Summarize | src/app/api/content/post/route.ts:39-43 | total is the number of results, successful and failed count the two kinds, and they add up to the total |
| ContentPostRoute.Publish | src/app/api/content/post/route.ts:20 | the result names the item and the platform and is the publisher's answer (`Poster.PostOutcome`); account routes survive |
| ContentPostRoute.PostSingle | src/app/api/content/post/route.ts:14-26 | content not among the project's gives 404 with no request; otherwise the result is the publisher's answer; success gives 200 and marks the item posted with its URL; failure gives 500 and no change |
| ContentPostRoute.PostRoute | src/app/api/content/post/route.ts:5-52 | no project id gives 400 with no request and no change; without both a content id and a platform (auto mode) the results, requests and stored accounts are exactly the auto-poster's run (`Poster.AutoPosted`), so each result is the platform's answer for its item; the answer is 200 with the summary of those results, one per attempted item in order, and each stored item ends as `AfterPosts` says, so exactly the items with a successful answer are marked posted |
| ContentPostRoute.UnattemptedUntouched | src/app/api/content/post/route.ts:29-37 | in auto mode an item that was not attempted is never marked |

## Left out

- File I/O: the JSON files of the store and the OAuth state file are in-memory `seq` and `map` fields. A failed or corrupt read, which the source treats as an empty list, is not modelled.
- Concurrency and timing: the `Promise.all` fan-outs run in sequence, in the order the source lists them. The `setInterval` polling, the 2 s delay between auto-posts and console logging are left out.
- Clocks: one `now` serves a whole cycle, sweep or route call, and ISO strings are integers. The source stamps a project's last run after every awaited call of its cycle, and a sweep runs its due projects one after another, so in the source a stamp can lag the sweep's start by the length of all the cycles that ran before it.
- Randomness: fresh UUIDs are counter ids. The platform picked at random in step 1 of the cycle is never used by the source, so it is left out.
- PKCE verifier and challenge generation and authorization-URL building (SHA-256, random bytes, `URLSearchParams`) are not modelled. The start route and the callback route are not part of this model.
- The Gemini and image-generation internals, including their own fallbacks and JSON extraction, are oracle functions. An exception they let escape is a `Failure` with its message.
- Where a request can both answer non-OK and throw, one oracle `Failure` stands for both, and the model gives it the non-OK message; the source would return the thrown error's own message instead. The exceptions are LinkedIn's upload registration and image upload and the profile fetched after a code exchange, whose oracles keep a thrown request apart. The exact formatting of status codes in error strings is not modelled.
- Lower-casing is ASCII-only (`Text.ToLower`). The source uses full Unicode `toLowerCase`.
- String lengths and cuts count characters (code points): `Audience.LongWord`'s four-character test and the 50- and 30-character excerpts of `SocialData.TweetLead` and `SocialData.CommentLead`. The source's `.length` and `substring` count UTF-16 code units, so text with characters outside the Basic Multilingual Plane is measured and cut differently.
- Partial patches carry only the fields their callers send (`ProjectPatch`, `TokenPatch`, `LeadPatch`). An arbitrary `Partial<T>` is not modelled.
- An account with no access token sends an empty bearer token to LinkedIn and Instagram. The model passes "" there too.
- LinkedIn's image upload answer is ignored unless the request throws, and a refused upload registration degrades to a text-only post. This follows the code.
- The cycle's error list holds tagged `CycleError` values instead of the formatted strings "Content Gen: …", "Image Gen (id): …" and so on.
- The list built at src/app/api/leads/reply/route.ts:39-52 is never used by the source and is not modelled.
- The image route's 200 answer for "no content needs image generation" is a response with an empty result list. Its message text is left out, as are the message texts of the 201 answer.
- The GET handler of src/app/api/leads/route.ts (list a project's leads) only reads the store and is not modelled.
- The catch-all 500 answers of the routes and the runner's catch are not modelled: in the model nothing throws past an operation.
- The scheduler's dedicated mode runs `RunCycleSafe` directly, without a due check, and repeats every 15 minutes. Only `RunCycleSafe` itself is modelled.
- Agent.CreatePhase: states only that no critical error is reported. What steps 1 and 2 do is stated by `GenerateContentStep` and `GenerateImagesStep`.
- Agent.PublishPhase: states only the counter bound and the error tags. Step 3 itself is stated by `PublishStep`.
- Agent.DiscoveryStep: states only the lead count and the error tag. The discovery itself is stated by `Audience.DiscoverAndSaveLeads`.
- Agent.AudiencePhase: states only the lead count, the engagement bound and the error tags. Steps 4 and 5 are stated by `DiscoverAndSaveLeads` and `EngageStep`.
- Agent.RunAgentCycle: states the missing-project path, the last-run stamp, the counter bounds and the error tags. It does not compose the content and lead changes of the five steps into one statement.
- Runner.RunCycleSafe: states only the last-run stamp of the cycle it runs. Everything else is stated by `Agent.RunAgentCycle`.
- Audience.DiscoverAndSaveLeads: a persona answer without a leads array fails with the oracle's message; the source fails there with the JavaScript error raised by reading `leads` of that answer, whose text is not modelled.
- Poster.PostText: its own contract gives only the prefix. The hashtag line is stated by `Poster.PostTextRecoversHashtags`.
- SocialData.TwitterQuery: its own contract gives only the opening parenthesis. The use of the first two keywords is stated by `SocialData.TwitterQueryUsesTwoKeywords`.
- The ERC-20 token deployment, the UI pages and the thin wrapper routes are not part of this model.
