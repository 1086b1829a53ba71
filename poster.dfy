/** Publishing content to Twitter, LinkedIn and Instagram, and replying to
    leads, including the Twitter token-freshness rule. */
module Poster {
  import opened Wrappers
  import opened Seqs
  import opened Text
  import opened Records
  import opened External
  import opened Db
  import OAuth

  // ----- pure helpers -----

  /** Tokens are refreshed this long before they expire, in milliseconds. */
  const RefreshMarginMs: int := 5 * 60 * 1000

  /** The token of an account is stale: an expiry is recorded (a zero
      expiry counts as none) and `now` is past it less the margin. */
  predicate NeedsRefresh(expiresAt: Option<int>, now: int) {
    expiresAt.Some? && expiresAt.value != 0 && now > expiresAt.value - RefreshMarginMs
  }

  /** The refresh window opens exactly five minutes before the expiry. */
  lemma RefreshBoundary(expiresAt: int)
    requires expiresAt != 0
    ensures !NeedsRefresh(Some(expiresAt), expiresAt - RefreshMarginMs)
    ensures NeedsRefresh(Some(expiresAt), expiresAt - RefreshMarginMs + 1)
    ensures forall now :: now <= expiresAt - RefreshMarginMs ==> !NeedsRefresh(Some(expiresAt), now)
    ensures !NeedsRefresh(None, expiresAt)
  {
  }

  function NormalizeHashtag(h: string): (r: string)
    ensures StartsWith(r, "#")
    ensures r == h || r == "#" + h
    ensures StartsWith(h, "#") ==> r == h
    ensures !StartsWith(h, "#") ==> r == "#" + h
  {
    if StartsWith(h, "#") then h else "#" + h
  }

  /** The hashtags, each with a leading '#', separated by single spaces. */
  function HashtagLine(tags: seq<string>): string {
    Join(Map(tags, NormalizeHashtag), " ")
  }

  /** The text of a post: the caption, a blank line, then the hashtags. */
  function PostText(caption: string, tags: seq<string>): (r: string)
    ensures StartsWith(r, caption + "\n\n")
  {
    caption + "\n\n" + HashtagLine(tags)
  }

  /** The hashtags can be read back from a post's text, in order and each
      starting with '#', as long as none contains a space. */
  lemma PostTextRecoversHashtags(caption: string, tags: seq<string>)
    requires |tags| >= 1
    requires forall i :: 0 <= i < |tags| ==> ' ' !in tags[i]
    ensures var pieces := Split(PostText(caption, tags)[|caption| + 2..], ' ');
            |pieces| == |tags| &&
            forall i :: 0 <= i < |tags| ==> pieces[i] == NormalizeHashtag(tags[i]) && StartsWith(pieces[i], "#")
  {
    var r := PostText(caption, tags);
    assert r[|caption| + 2..] == HashtagLine(tags);
    var m := Map(tags, NormalizeHashtag);
    forall i | 0 <= i < |m|
      ensures ' ' !in m[i]
    {
      assert m[i] == tags[i] || m[i] == "#" + tags[i];
    }
    SplitJoin(m, ' ');
  }

  /** The configured public base URL, or the local development server. */
  function BaseUrl(configured: string): string {
    if configured == "" then "http://localhost:3000" else configured
  }

  /** Instagram fetches the image itself: an absolute URL is kept, a path
      is put under the public base URL. */
  function ResolveImageUrl(imageUrl: string, baseUrl: string): (r: string)
    ensures StartsWith(imageUrl, "http") ==> r == imageUrl
    ensures !StartsWith(imageUrl, "http") ==> r == baseUrl + imageUrl
    ensures StartsWith(baseUrl, "http") ==> StartsWith(r, "http")
  {
    if StartsWith(imageUrl, "http") then imageUrl else baseUrl + imageUrl
  }

  /** Resolving twice is resolving once when the base URL is absolute. */
  lemma ResolveImageUrlIdempotent(imageUrl: string, baseUrl: string)
    requires StartsWith(baseUrl, "http")
    ensures ResolveImageUrl(ResolveImageUrl(imageUrl, baseUrl), baseUrl) == ResolveImageUrl(imageUrl, baseUrl)
  {
  }

  /** Where a site-relative image lives on disk, under `public/`. */
  function LocalImagePath(imageUrl: string): string {
    "public/" + (if StartsWith(imageUrl, "/") then imageUrl[1..] else imageUrl)
  }

  function TwitterStatusUrl(username: string, tweetId: string): string {
    "https://twitter.com/" + username + "/status/" + tweetId
  }

  /** The bearer token sent for an account; a missing token is sent empty. */
  function TokenOf(account: SocialAccount): string {
    account.accessToken.GetOr("")
  }

  // ----- Twitter -----

  /** The upload is tried only for an image that exists on disk. */
  predicate HasLocalImage(content: ContentItem, net: Net) {
    Present(content.imageUrl) && net.fileExists(LocalImagePath(content.imageUrl.value))
  }

  /** Posts the tweet once a usable account is known: the image is uploaded
      when there is one on disk, and a failed or empty upload leaves the
      tweet text-only. */
  function SendTweet(account: SocialAccount, content: ContentItem, net: Net): (a: Attempt<string>)
    ensures !Present(account.accessToken) <==> a.calls == []
    ensures !Present(account.accessToken) ==> a.result == Failure("No access token available for Twitter")
    ensures Present(account.accessToken) ==>
      var token := account.accessToken.value;
      var last := a.calls[|a.calls| - 1];
      && |a.calls| == (if HasLocalImage(content, net) then 2 else 1)
      && last.TwitterPost? && last.accessToken == token
      && last.text == PostText(content.caption, content.hashtags)
      && (a.result.Success? <==> net.twitterPost(token, last.text, last.mediaId).Success?)
      && (a.result.Success? ==>
            a.result.value == TwitterStatusUrl(account.username, net.twitterPost(token, last.text, last.mediaId).value))
    ensures Present(account.accessToken) ==>
      var token := account.accessToken.value;
      var last := a.calls[|a.calls| - 1];
      (last.mediaId.Some? <==>
         HasLocalImage(content, net) &&
         net.twitterUpload(token, LocalImagePath(content.imageUrl.value)).Success? &&
         net.twitterUpload(token, LocalImagePath(content.imageUrl.value)).value != "") &&
      (last.mediaId.Some? ==> last.mediaId.value == net.twitterUpload(token, LocalImagePath(content.imageUrl.value)).value)
  {
    if !Present(account.accessToken) then
      Attempt(Failure("No access token available for Twitter"), [])
    else
      var token := account.accessToken.value;
      var text := PostText(content.caption, content.hashtags);
      var upload: seq<Call> :=
        if HasLocalImage(content, net) then [TwitterUpload(token, LocalImagePath(content.imageUrl.value))] else [];
      var mediaId: Option<string> :=
        if HasLocalImage(content, net) then
          var up := net.twitterUpload(token, LocalImagePath(content.imageUrl.value));
          if up.Success? && up.value != "" then Some(up.value) else None
        else None;
      var calls := upload + [TwitterPost(token, text, mediaId)];
      match net.twitterPost(token, text, mediaId)
      case Success(id) => Attempt(Success(TwitterStatusUrl(account.username, id)), calls)
      case Failure(e) => Attempt(Failure(e), calls)
  }

  /** What publishing to Twitter answers, given the stored accounts: a stale
      token is refreshed first, and the tweet goes out from the account as
      the refresh leaves it. */
  function TwitterOutcome(accounts: seq<SocialAccount>, account: SocialAccount, content: ContentItem,
                          now: int, net: Net): Attempt<string>
  {
    if !NeedsRefresh(account.expiresAt, now) then SendTweet(account, content, net)
    else if !Present(account.refreshToken) then
      Attempt(Failure("Twitter token expired and no refresh token available"), [])
    else
      var refreshed := OAuth.RefreshTwitterToken(account.refreshToken.value, net);
      var call := RefreshTwitter(account.refreshToken.value);
      if refreshed.Failure? then Attempt(Failure("Twitter token refresh failed. Please reconnect."), [call])
      else
        var i := FindIndex(accounts, AccountWithId(account.id));
        var patch := TokenPatch(Some(refreshed.value.accessToken), refreshed.value.refreshToken,
                                now + refreshed.value.expiresIn * 1000);
        var current := if i < 0 then account else MergeTokens(accounts[i], patch);
        var sent := SendTweet(current, content, net);
        Attempt(sent.result, [call] + sent.calls)
  }

  /** The stored accounts after publishing to Twitter: only a successful
      refresh writes, merging the new tokens into the stored account. */
  function TwitterAccountsAfter(accounts: seq<SocialAccount>, account: SocialAccount, now: int, net: Net)
    : (r: seq<SocialAccount>)
    ensures SameRoutes(accounts, r)
  {
    if !NeedsRefresh(account.expiresAt, now) || !Present(account.refreshToken) then accounts
    else
      var refreshed := OAuth.RefreshTwitterToken(account.refreshToken.value, net);
      var i := FindIndex(accounts, AccountWithId(account.id));
      if refreshed.Failure? || i < 0 then accounts
      else
        accounts[i := MergeTokens(accounts[i], TokenPatch(Some(refreshed.value.accessToken),
                                                          refreshed.value.refreshToken,
                                                          now + refreshed.value.expiresIn * 1000))]
  }

  /** The case-by-case answer of `postToTwitter` is `TwitterOutcome`. */
  lemma TwitterOutcomeAgrees(accounts: seq<SocialAccount>, account: SocialAccount, content: ContentItem,
                             now: int, net: Net, r: Result<string, string>, calls: seq<Call>)
    requires !NeedsRefresh(account.expiresAt, now) ==> Attempt(r, calls) == SendTweet(account, content, net)
    requires NeedsRefresh(account.expiresAt, now) && !Present(account.refreshToken) ==>
      calls == [] && r == Failure("Twitter token expired and no refresh token available")
    requires NeedsRefresh(account.expiresAt, now) && Present(account.refreshToken) ==>
      var refreshed := OAuth.RefreshTwitterToken(account.refreshToken.value, net);
      && |calls| >= 1 && calls[0] == RefreshTwitter(account.refreshToken.value)
      && (refreshed.Failure? ==>
            calls == [RefreshTwitter(account.refreshToken.value)] &&
            r == Failure("Twitter token refresh failed. Please reconnect."))
      && (refreshed.Success? ==>
            var i := FindIndex(accounts, AccountWithId(account.id));
            var patch := TokenPatch(Some(refreshed.value.accessToken), refreshed.value.refreshToken,
                                    now + refreshed.value.expiresIn * 1000);
            var current := if i < 0 then account else MergeTokens(accounts[i], patch);
            Attempt(r, calls[1..]) == SendTweet(current, content, net))
    ensures Attempt(r, calls) == TwitterOutcome(accounts, account, content, now, net)
  {
    if NeedsRefresh(account.expiresAt, now) && Present(account.refreshToken) {
      var refreshed := OAuth.RefreshTwitterToken(account.refreshToken.value, net);
      if refreshed.Success? {
        var i := FindIndex(accounts, AccountWithId(account.id));
        var patch := TokenPatch(Some(refreshed.value.accessToken), refreshed.value.refreshToken,
                                now + refreshed.value.expiresIn * 1000);
        var current := if i < 0 then account else MergeTokens(accounts[i], patch);
        var sent := SendTweet(current, content, net);
        assert calls == [RefreshTwitter(account.refreshToken.value)] + sent.calls;
      }
    }
  }

  /** The case-by-case store of `postToTwitter` is `TwitterAccountsAfter`. */
  lemma TwitterAccountsAgree(accounts: seq<SocialAccount>, after: seq<SocialAccount>, account: SocialAccount,
                             now: int, net: Net)
    requires !NeedsRefresh(account.expiresAt, now) || !Present(account.refreshToken) ==> after == accounts
    requires NeedsRefresh(account.expiresAt, now) && Present(account.refreshToken) ==>
      var refreshed := OAuth.RefreshTwitterToken(account.refreshToken.value, net);
      && (refreshed.Failure? ==> after == accounts)
      && (refreshed.Success? ==>
            var i := FindIndex(accounts, AccountWithId(account.id));
            var patch := TokenPatch(Some(refreshed.value.accessToken), refreshed.value.refreshToken,
                                    now + refreshed.value.expiresIn * 1000);
            after == (if i < 0 then accounts else accounts[i := MergeTokens(accounts[i], patch)]))
    ensures after == TwitterAccountsAfter(accounts, account, now, net)
  {
  }

  /** Refreshes a stale Twitter token (and persists the new one) before
      tweeting; a fresh token is used as it is. */
  method PostToTwitter(db: Store, account: SocialAccount, content: ContentItem, now: int, net: Net)
    returns (r: Result<string, string>, calls: seq<Call>)
    requires db.Valid()
    modifies db`accounts
    ensures db.Valid()
    ensures SameRoutes(old(db.accounts), db.accounts)
    ensures !NeedsRefresh(account.expiresAt, now) ==>
      db.accounts == old(db.accounts) && Attempt(r, calls) == SendTweet(account, content, net)
    ensures NeedsRefresh(account.expiresAt, now) && !Present(account.refreshToken) ==>
      db.accounts == old(db.accounts) && calls == [] &&
      r == Failure("Twitter token expired and no refresh token available")
    ensures NeedsRefresh(account.expiresAt, now) && Present(account.refreshToken) ==>
      var refreshed := OAuth.RefreshTwitterToken(account.refreshToken.value, net);
      && |calls| >= 1 && calls[0] == RefreshTwitter(account.refreshToken.value)
      && (refreshed.Failure? ==>
            db.accounts == old(db.accounts) && calls == [RefreshTwitter(account.refreshToken.value)] &&
            r == Failure("Twitter token refresh failed. Please reconnect."))
      && (refreshed.Success? ==>
            var i := FindIndex(old(db.accounts), AccountWithId(account.id));
            var patch := TokenPatch(Some(refreshed.value.accessToken), refreshed.value.refreshToken,
                                    now + refreshed.value.expiresIn * 1000);
            var current := if i < 0 then account else MergeTokens(old(db.accounts)[i], patch);
            && db.accounts == (if i < 0 then old(db.accounts) else old(db.accounts)[i := current])
            && Attempt(r, calls[1..]) == SendTweet(current, content, net))
    ensures Attempt(r, calls) == TwitterOutcome(old(db.accounts), account, content, now, net)
    ensures db.accounts == TwitterAccountsAfter(old(db.accounts), account, now, net)
  {
    ghost var before := db.accounts;
    var current := account;
    calls := [];
    if NeedsRefresh(current.expiresAt, now) {
      if !Present(current.refreshToken) {
        return Failure("Twitter token expired and no refresh token available"), [];
      }
      calls := [RefreshTwitter(current.refreshToken.value)];
      var refreshed := OAuth.RefreshTwitterToken(current.refreshToken.value, net);
      if refreshed.Failure? {
        return Failure("Twitter token refresh failed. Please reconnect."), calls;
      }
      var updated := db.UpdateSocialAccount(current.id,
        TokenPatch(Some(refreshed.value.accessToken), refreshed.value.refreshToken,
                   now + refreshed.value.expiresIn * 1000));
      if updated.Some? {
        current := updated.value;
      }
    }
    var sent := SendTweet(current, content, net);
    r := sent.result;
    calls := calls + sent.calls;
    TwitterOutcomeAgrees(before, account, content, now, net, r, calls);
    TwitterAccountsAgree(before, db.accounts, account, now, net);
  }

  // ----- LinkedIn -----

  /** The image asset a post carries. Registration is asked only for an
      image on disk; a refused registration leaves the post text-only, while
      a registration or an upload request that throws fails the post. */
  function LinkedInAsset(token: string, owner: string, content: ContentItem, net: Net): (a: Attempt<Option<string>>)
    ensures !HasLocalImage(content, net) ==> a == Attempt(Success(None), [])
    ensures HasLocalImage(content, net) ==>
      var register := net.linkedInRegister(token, owner);
      && |a.calls| >= 1 && a.calls[0] == LinkedInRegister(token, owner)
      && (register.Failure? ==> a == Attempt(Failure(register.error), [LinkedInRegister(token, owner)]))
      && (register == Success(None) ==> a == Attempt(Success(None), [LinkedInRegister(token, owner)]))
    ensures HasLocalImage(content, net) && net.linkedInRegister(token, owner).Success? &&
            net.linkedInRegister(token, owner).value.Some? ==>
      var slot := net.linkedInRegister(token, owner).value.value;
      var asset := if Present(slot.asset) then slot.asset else None;
      var path := LocalImagePath(content.imageUrl.value);
      && (!Present(slot.uploadUrl) ==> a == Attempt(Success(asset), [LinkedInRegister(token, owner)]))
      && (Present(slot.uploadUrl) ==>
            var upload := net.linkedInUpload(slot.uploadUrl.value, path);
            && a.calls == [LinkedInRegister(token, owner), LinkedInUpload(slot.uploadUrl.value, path)]
            && (upload.Failure? ==> a.result == Failure(upload.error))
            && (upload.Success? ==> a.result == Success(asset)))
    ensures a.result.Success? && a.result.value.Some? ==>
      HasLocalImage(content, net) && net.linkedInRegister(token, owner).Success? &&
      net.linkedInRegister(token, owner).value.Some? && Present(a.result.value)
  {
    if !HasLocalImage(content, net) then Attempt(Success(None), [])
    else
      var path := LocalImagePath(content.imageUrl.value);
      match net.linkedInRegister(token, owner)
      case Failure(e) => Attempt(Failure(e), [LinkedInRegister(token, owner)])
      case Success(None) => Attempt(Success(None), [LinkedInRegister(token, owner)])
      case Success(Some(slot)) =>
        var asset := if Present(slot.asset) then slot.asset else None;
        if !Present(slot.uploadUrl) then Attempt(Success(asset), [LinkedInRegister(token, owner)])
        else
          var calls := [LinkedInRegister(token, owner), LinkedInUpload(slot.uploadUrl.value, path)];
          match net.linkedInUpload(slot.uploadUrl.value, path)
          case Failure(e) => Attempt(Failure(e), calls)
          case Success(_) => Attempt(Success(asset), calls)
  }

  function LinkedInPersonUrn(sub: string): string {
    "urn:li:person:" + sub
  }

  /** Shares the post on the member's feed, with the image when one was
      registered. */
  function PostToLinkedIn(account: SocialAccount, content: ContentItem, net: Net): (a: Attempt<string>)
    ensures |a.calls| >= 1 && a.calls[0] == LinkedInProfile(TokenOf(account))
    ensures net.linkedInProfile(TokenOf(account)).Failure? ==>
      a == Attempt(Failure("LinkedIn profile fetch failed: " + net.linkedInProfile(TokenOf(account)).error),
                   [LinkedInProfile(TokenOf(account))])
    ensures net.linkedInProfile(TokenOf(account)).Success? ==>
      var token := TokenOf(account);
      var owner := LinkedInPersonUrn(net.linkedInProfile(token).value);
      var asset := LinkedInAsset(token, owner, content, net);
      var text := PostText(content.caption, content.hashtags);
      && (asset.result.Failure? ==>
            a == Attempt(Failure(asset.result.error), [LinkedInProfile(token)] + asset.calls))
      && (asset.result.Success? ==>
            var post := net.linkedInPost(token, owner, text, asset.result.value);
            && a.calls == [LinkedInProfile(token)] + asset.calls + [LinkedInPost(token, owner, text, asset.result.value)]
            && (post.Success? ==> a.result == Success("https://www.linkedin.com/feed/update/" + post.value))
            && (post.Failure? ==> a.result == Failure("LinkedIn API: " + post.error)))
    ensures a.result.Success? ==>
      var last := a.calls[|a.calls| - 1];
      && last.LinkedInPost? && last.accessToken == TokenOf(account)
      && last.text == PostText(content.caption, content.hashtags)
      && (last.asset.Some? ==> HasLocalImage(content, net))
  {
    var token := TokenOf(account);
    match net.linkedInProfile(token)
    case Failure(e) => Attempt(Failure("LinkedIn profile fetch failed: " + e), [LinkedInProfile(token)])
    case Success(sub) =>
      var owner := LinkedInPersonUrn(sub);
      var asset := LinkedInAsset(token, owner, content, net);
      match asset.result
      case Failure(e) => Attempt(Failure(e), [LinkedInProfile(token)] + asset.calls)
      case Success(image) =>
        var text := PostText(content.caption, content.hashtags);
        var calls := [LinkedInProfile(token)] + asset.calls + [LinkedInPost(token, owner, text, image)];
        match net.linkedInPost(token, owner, text, image)
        case Success(id) => Attempt(Success("https://www.linkedin.com/feed/update/" + id), calls)
        case Failure(e) => Attempt(Failure("LinkedIn API: " + e), calls)
  }

  // ----- Instagram -----

  /** Publishes a photo: the caller's profile, a media container for the
      public image URL, then the publication of the container. */
  function PostToInstagram(account: SocialAccount, content: ContentItem, configuredBaseUrl: string, net: Net)
    : (a: Attempt<string>)
    ensures !Present(content.imageUrl) ==>
      a == Attempt(Failure("Instagram requires an image to post"), [])
    ensures Present(content.imageUrl) ==> |a.calls| >= 1 && a.calls[0] == InstagramProfile(TokenOf(account))
    ensures a.result.Success? ==> Present(content.imageUrl) && net.instagramProfile(TokenOf(account)).Success?
    ensures a.result.Success? ==>
      var token := TokenOf(account);
      var me := net.instagramProfile(token).value;
      var userId := OrElse(me.userId, me.id.GetOr(""));
      var imageUrl := ResolveImageUrl(content.imageUrl.value, BaseUrl(configuredBaseUrl));
      var container := net.instagramContainer(userId, imageUrl, PostText(content.caption, content.hashtags), token);
      container.Success? && net.instagramPublish(userId, container.value, token).Success?
    ensures a.result.Success? ==>
      var token := TokenOf(account);
      var me := net.instagramProfile(token).value;
      var userId := OrElse(me.userId, me.id.GetOr(""));
      var caption := PostText(content.caption, content.hashtags);
      var imageUrl := ResolveImageUrl(content.imageUrl.value, BaseUrl(configuredBaseUrl));
      var container := net.instagramContainer(userId, imageUrl, caption, token).value;
      && a.calls == [InstagramProfile(token), InstagramContainer(userId, imageUrl, caption, token),
                     InstagramPublish(userId, container, token)]
      && a.result.value == "https://www.instagram.com/p/" + net.instagramPublish(userId, container, token).value
    ensures Present(content.imageUrl) && net.instagramProfile(TokenOf(account)).Failure? ==>
      a == Attempt(Failure("Instagram profile fetch failed: " + net.instagramProfile(TokenOf(account)).error),
                   [InstagramProfile(TokenOf(account))])
    ensures Present(content.imageUrl) && net.instagramProfile(TokenOf(account)).Success? ==>
      var token := TokenOf(account);
      var me := net.instagramProfile(token).value;
      var userId := OrElse(me.userId, me.id.GetOr(""));
      var caption := PostText(content.caption, content.hashtags);
      var imageUrl := ResolveImageUrl(content.imageUrl.value, BaseUrl(configuredBaseUrl));
      var container := net.instagramContainer(userId, imageUrl, caption, token);
      && (container.Failure? ==>
            a == Attempt(Failure("Instagram container: " + container.error),
                         [InstagramProfile(token), InstagramContainer(userId, imageUrl, caption, token)]))
      && (container.Success? && net.instagramPublish(userId, container.value, token).Failure? ==>
            a.result == Failure("Instagram publish: " + net.instagramPublish(userId, container.value, token).error))
      && (container.Success? && net.instagramPublish(userId, container.value, token).Success? ==>
            a.result == Success("https://www.instagram.com/p/" + net.instagramPublish(userId, container.value, token).value))
    ensures Present(content.imageUrl) && StartsWith(BaseUrl(configuredBaseUrl), "http") && |a.calls| >= 2 ==>
      a.calls[1].InstagramContainer? && StartsWith(a.calls[1].imageUrl, "http")
  {
    if !Present(content.imageUrl) then
      Attempt(Failure("Instagram requires an image to post"), [])
    else
      var token := TokenOf(account);
      match net.instagramProfile(token)
      case Failure(e) => Attempt(Failure("Instagram profile fetch failed: " + e), [InstagramProfile(token)])
      case Success(me) =>
        var userId := OrElse(me.userId, me.id.GetOr(""));
        var caption := PostText(content.caption, content.hashtags);
        var imageUrl := ResolveImageUrl(content.imageUrl.value, BaseUrl(configuredBaseUrl));
        var containerCall := InstagramContainer(userId, imageUrl, caption, token);
        match net.instagramContainer(userId, imageUrl, caption, token)
        case Failure(e) =>
          Attempt(Failure("Instagram container: " + e), [InstagramProfile(token), containerCall])
        case Success(container) =>
          var calls := [InstagramProfile(token), containerCall, InstagramPublish(userId, container, token)];
          match net.instagramPublish(userId, container, token)
          case Failure(e) => Attempt(Failure("Instagram publish: " + e), calls)
          case Success(id) => Attempt(Success("https://www.instagram.com/p/" + id), calls)
  }

  // ----- dispatch -----

  datatype PostResult = PostResult(contentId: Id, platform: string, result: Result<string, string>)

  /** The platforms `postContent` can publish to. */
  predicate Publishable(platform: string) {
    platform == "twitter" || platform == "linkedin" || platform == "instagram"
  }

  /** What `postContent` answers for an item and a platform key, given the
      stored accounts. */
  function PostOutcome(accounts: seq<SocialAccount>, projectId: Id, item: ContentItem, platform: string,
                       now: int, env: Env): Attempt<string>
  {
    match LookupSocial(accounts, projectId, platform)
    case None => Attempt(Failure("No connected " + platform + " account"), [])
    case Some(account) =>
      if platform == "twitter" then TwitterOutcome(accounts, account, item, now, env.net)
      else if platform == "linkedin" then PostToLinkedIn(account, item, env.net)
      else if platform == "instagram" then PostToInstagram(account, item, env.publicBaseUrl, env.net)
      else Attempt(Failure("Unsupported platform: " + platform), [])
  }

  /** The stored accounts after `postContent`: only Twitter writes. */
  function AccountsAfter(accounts: seq<SocialAccount>, projectId: Id, platform: string, now: int, net: Net)
    : (r: seq<SocialAccount>)
    ensures SameRoutes(accounts, r)
  {
    match LookupSocial(accounts, projectId, platform)
    case None => accounts
    case Some(account) => if platform == "twitter" then TwitterAccountsAfter(accounts, account, now, net) else accounts
  }

  /** Publishes one item through the project's connected account for the
      platform (a lower-case key). Only a Twitter post can write to the
      store, by persisting a refreshed token. */
  method PostContent(db: Store, projectId: Id, item: ContentItem, platform: string, now: int, env: Env)
    returns (r: PostResult, calls: seq<Call>)
    requires db.Valid()
    modifies db`accounts
    ensures db.Valid()
    ensures r.contentId == item.id && r.platform == platform
    ensures SameRoutes(old(db.accounts), db.accounts)
    ensures platform != "twitter" ==> db.accounts == old(db.accounts)
    ensures LookupSocial(old(db.accounts), projectId, platform).None? ==>
      r.result == Failure("No connected " + platform + " account") && calls == []
    ensures LookupSocial(old(db.accounts), projectId, platform).Some? ==>
      var account := LookupSocial(old(db.accounts), projectId, platform).value;
      && (!Publishable(platform) ==> r.result == Failure("Unsupported platform: " + platform) && calls == [])
      && (platform == "linkedin" ==> Attempt(r.result, calls) == PostToLinkedIn(account, item, env.net))
      && (platform == "instagram" ==>
            Attempt(r.result, calls) == PostToInstagram(account, item, env.publicBaseUrl, env.net))
      && (platform == "twitter" && !NeedsRefresh(account.expiresAt, now) ==>
            Attempt(r.result, calls) == SendTweet(account, item, env.net))
    ensures Attempt(r.result, calls) == PostOutcome(old(db.accounts), projectId, item, platform, now, env)
    ensures db.accounts == AccountsAfter(old(db.accounts), projectId, platform, now, env.net)
  {
    var account := db.GetSocialByPlatform(projectId, platform);
    if account.None? {
      return PostResult(item.id, platform, Failure("No connected " + platform + " account")), [];
    }
    var result: Result<string, string>;
    if platform == "twitter" {
      result, calls := PostToTwitter(db, account.value, item, now, env.net);
    } else if platform == "linkedin" {
      var a := PostToLinkedIn(account.value, item, env.net);
      result, calls := a.result, a.calls;
    } else if platform == "instagram" {
      var a := PostToInstagram(account.value, item, env.publicBaseUrl, env.net);
      result, calls := a.result, a.calls;
    } else {
      result, calls := Failure("Unsupported platform: " + platform), [];
    }
    r := PostResult(item.id, platform, result);
  }

  /** The account key for a content item's platform name: the fixed table
      for the four known labels, lower-casing otherwise. */
  function PlatformKey(name: string): string {
    if name == "Twitter" then "twitter"
    else if name == "LinkedIn" then "linkedin"
    else if name == "Instagram" then "instagram"
    else if name == "Reddit" then "reddit"
    else ToLower(name)
  }

  /** The table agrees with lower-casing, so the key is always the
      lower-cased name. */
  lemma PlatformKeyIsLowerCase(name: string)
    ensures PlatformKey(name) == ToLower(name)
  {
    if name == "Twitter" {
      assert ToLower(name) == "twitter";
    } else if name == "LinkedIn" {
      assert ToLower(name) == "linkedin";
    } else if name == "Instagram" {
      assert ToLower(name) == "instagram";
    } else if name == "Reddit" {
      assert ToLower(name) == "reddit";
    }
  }

  /** An item the auto-poster attempts: not yet posted, and with a connected
      account for its platform. */
  function Attempted(projectId: Id, accounts: seq<SocialAccount>): ContentItem -> bool {
    (c: ContentItem) => c.status != Posted && LookupSocial(accounts, projectId, PlatformKey(c.platform)).Some?
  }

  /** One result per attempted item, naming it and its platform key. */
  predicate Reports(results: seq<PostResult>, attempted: seq<ContentItem>) {
    |results| == |attempted| &&
    forall k :: 0 <= k < |results| ==>
      results[k].contentId == attempted[k].id && results[k].platform == PlatformKey(attempted[k].platform)
  }

  /** What a run of the auto-poster produced: the results, the requests and
      the stored accounts afterwards. */
  datatype AutoRun = AutoRun(results: seq<PostResult>, calls: seq<Call>, accounts: seq<SocialAccount>)

  /** One item against the accounts as they are at its turn: a posted item
      or one without a connected account is skipped; any other item is
      published and its answer reported. */
  function AutoStep(item: ContentItem, projectId: Id, accounts: seq<SocialAccount>, now: int, env: Env): AutoRun {
    var platform := PlatformKey(item.platform);
    if item.status == Posted || LookupSocial(accounts, projectId, platform).None? then AutoRun([], [], accounts)
    else
      var o := PostOutcome(accounts, projectId, item, platform, now, env);
      AutoRun([PostResult(item.id, platform, o.result)], o.calls, AccountsAfter(accounts, projectId, platform, now, env.net))
  }

  /** The auto-poster's loop for a given step: the items in order, each
      step seeing the accounts the steps before it left. */
  function RunSteps(items: seq<ContentItem>, accounts: seq<SocialAccount>,
                    step: (ContentItem, seq<SocialAccount>) -> AutoRun): AutoRun
    decreases |items|
  {
    if items == [] then AutoRun([], [], accounts)
    else
      var first := step(items[0], accounts);
      var rest := RunSteps(items[1..], first.accounts, step);
      AutoRun(first.results + rest.results, first.calls + rest.calls, rest.accounts)
  }

  /** The step `autoPostAllContent` takes for each item. */
  function Publisher(projectId: Id, now: int, env: Env): (ContentItem, seq<SocialAccount>) -> AutoRun {
    (item, accounts) => AutoStep(item, projectId, accounts, now, env)
  }

  /** The whole auto-poster run (a refreshed Twitter token is used by later
      tweets). */
  function AutoPosted(items: seq<ContentItem>, projectId: Id, accounts: seq<SocialAccount>, now: int, env: Env): AutoRun {
    RunSteps(items, accounts, Publisher(projectId, now, env))
  }

  /** Reports of consecutive stretches join up. */
  lemma ReportsJoin(r1: seq<PostResult>, a1: seq<ContentItem>, r2: seq<PostResult>, a2: seq<ContentItem>)
    requires Reports(r1, a1) && Reports(r2, a2)
    ensures Reports(r1 + r2, a1 + a2)
  {
  }

  /** One step reports its item exactly when the item is attempted. */
  lemma AutoStepReports(item: ContentItem, projectId: Id, accounts0: seq<SocialAccount>,
                        accounts: seq<SocialAccount>, now: int, env: Env)
    requires SameRoutes(accounts0, accounts)
    ensures Reports(AutoStep(item, projectId, accounts, now, env).results,
                    if Attempted(projectId, accounts0)(item) then [item] else [])
  {
    SameRoutesLookup(accounts0, accounts, projectId, PlatformKey(item.platform));
  }

  /** One step keeps every account's route. */
  lemma AutoStepRoutes(item: ContentItem, projectId: Id, accounts0: seq<SocialAccount>,
                       accounts: seq<SocialAccount>, now: int, env: Env)
    requires SameRoutes(accounts0, accounts)
    ensures SameRoutes(accounts0, AutoStep(item, projectId, accounts, now, env).accounts)
  {
    var platform := PlatformKey(item.platform);
    if item.status != Posted && LookupSocial(accounts, projectId, platform).Some? {
      assert SameRoutes(accounts, AccountsAfter(accounts, projectId, platform, now, env.net));
    }
  }

  /** A run of any step that reports its item exactly when `attempt`
      holds, and keeps every account's route, reports exactly the attempted
      items, in order, and keeps every account's route. */
  lemma {:induction false} RunStepsReports(items: seq<ContentItem>, accounts0: seq<SocialAccount>,
                                           accounts: seq<SocialAccount>,
                                           step: (ContentItem, seq<SocialAccount>) -> AutoRun,
                                           attempt: ContentItem -> bool)
    requires SameRoutes(accounts0, accounts)
    requires forall item, a :: SameRoutes(accounts0, a) ==>
      && Reports(step(item, a).results, if attempt(item) then [item] else [])
      && SameRoutes(accounts0, step(item, a).accounts)
    ensures Reports(RunSteps(items, accounts, step).results, Filter(items, attempt))
    ensures SameRoutes(accounts0, RunSteps(items, accounts, step).accounts)
    decreases |items|
  {
    if items != [] {
      var first := step(items[0], accounts);
      RunStepsReports(items[1..], accounts0, first.accounts, step, attempt);
      var rest := RunSteps(items[1..], first.accounts, step);
      var head := if attempt(items[0]) then [items[0]] else [];
      assert Filter(items, attempt) == head + Filter(items[1..], attempt);
      ReportsJoin(first.results, head, rest.results, Filter(items[1..], attempt));
    }
  }

  /** The auto-poster reports exactly the items that are unposted and have a
      connected account, in order, and keeps every account's route. */
  lemma AutoPostedReports(items: seq<ContentItem>, projectId: Id, accounts0: seq<SocialAccount>, now: int, env: Env)
    ensures Reports(AutoPosted(items, projectId, accounts0, now, env).results,
                    Filter(items, Attempted(projectId, accounts0)))
    ensures SameRoutes(accounts0, AutoPosted(items, projectId, accounts0, now, env).accounts)
  {
    var step := Publisher(projectId, now, env);
    forall item, a | SameRoutes(accounts0, a)
      ensures Reports(step(item, a).results, if Attempted(projectId, accounts0)(item) then [item] else [])
      ensures SameRoutes(accounts0, step(item, a).accounts)
    {
      AutoStepReports(item, projectId, accounts0, a, now, env);
      AutoStepRoutes(item, projectId, accounts0, a, now, env);
    }
    RunStepsReports(items, accounts0, accounts0, step, Attempted(projectId, accounts0));
  }

  /** Peels the item at `i` off the rest of a run. */
  lemma AutoPostedAt(items: seq<ContentItem>, i: nat, projectId: Id, accounts: seq<SocialAccount>, now: int, env: Env)
    requires i < |items|
    ensures var step := AutoStep(items[i], projectId, accounts, now, env);
            var rest := AutoPosted(items[i + 1..], projectId, step.accounts, now, env);
            AutoPosted(items[i..], projectId, accounts, now, env) ==
              AutoRun(step.results + rest.results, step.calls + rest.calls, rest.accounts)
  {
    assert items[i..][1..] == items[i + 1..];
  }

  /** The auto-poster after the first `i` items: what is done, followed by
      what the rest will do, is the whole run. */
  predicate PostedSoFar(items: seq<ContentItem>, i: nat, projectId: Id, accounts: seq<SocialAccount>,
                        results: seq<PostResult>, calls: seq<Call>, total: AutoRun, now: int, env: Env) {
    && i <= |items|
    && var rest := AutoPosted(items[i..], projectId, accounts, now, env);
       && results + rest.results == total.results
       && calls + rest.calls == total.calls
       && rest.accounts == total.accounts
  }

  /** Running one more item keeps `PostedSoFar`. */
  lemma PostedSoFarNext(items: seq<ContentItem>, i: nat, projectId: Id, before: seq<SocialAccount>,
                        after: seq<SocialAccount>, results: seq<PostResult>, calls: seq<Call>,
                        r: seq<PostResult>, c: seq<Call>, total: AutoRun, now: int, env: Env)
    requires i < |items|
    requires PostedSoFar(items, i, projectId, before, results, calls, total, now, env)
    requires AutoRun(r, c, after) == AutoStep(items[i], projectId, before, now, env)
    ensures PostedSoFar(items, i + 1, projectId, after, results + r, calls + c, total, now, env)
  {
    AutoPostedAt(items, i, projectId, before, now, env);
    RunJoin(results, calls, r, c, AutoPosted(items[i + 1..], projectId, after, now, env),
            AutoPosted(items[i..], projectId, before, now, env), total);
  }

  /** What is done, one more step, and what remains after it, is the whole
      run. */
  lemma RunJoin(results: seq<PostResult>, calls: seq<Call>, r: seq<PostResult>, c: seq<Call>,
                rest: AutoRun, whole: AutoRun, total: AutoRun)
    requires whole == AutoRun(r + rest.results, c + rest.calls, rest.accounts)
    requires results + whole.results == total.results && calls + whole.calls == total.calls
    requires whole.accounts == total.accounts
    ensures results + r + rest.results == total.results && calls + c + rest.calls == total.calls
    ensures rest.accounts == total.accounts
  {
    assert results + r + rest.results == results + (r + rest.results);
    assert calls + c + rest.calls == calls + (c + rest.calls);
  }

  /** One item: skipped when posted or without a connected account,
      otherwise published and its answer reported. */
  method AutoPostTurn(db: Store, item: ContentItem, projectId: Id, now: int, env: Env)
    returns (results: seq<PostResult>, calls: seq<Call>)
    requires db.Valid()
    modifies db`accounts
    ensures db.Valid()
    ensures AutoRun(results, calls, db.accounts) == AutoStep(item, projectId, old(db.accounts), now, env)
  {
    var platform := PlatformKey(item.platform);
    var account := db.GetSocialByPlatform(projectId, platform);
    results, calls := [], [];
    if item.status != Posted && account.Some? {
      var r;
      r, calls := PostContent(db, projectId, item, platform, now, env);
      results := [r];
    }
  }

  /** Publishes every unposted item of the project that has a connected
      account for its platform, in order, reporting each answer. */
  method AutoPostAllContent(db: Store, projectId: Id, now: int, env: Env)
    returns (results: seq<PostResult>, calls: seq<Call>)
    requires db.Valid()
    modifies db`accounts
    ensures db.Valid()
    ensures AutoRun(results, calls, db.accounts) ==
      AutoPosted(old(db.GetContent(projectId)), projectId, old(db.accounts), now, env)
    ensures SameRoutes(old(db.accounts), db.accounts)
    ensures Reports(results, Filter(db.GetContent(projectId), Attempted(projectId, old(db.accounts))))
  {
    var items := db.GetContent(projectId);
    ghost var accounts0 := db.accounts;
    ghost var total := AutoPosted(items, projectId, accounts0, now, env);
    results, calls := [], [];
    var i := 0;
    while i < |items|
      invariant 0 <= i <= |items|
      invariant db.Valid()
      invariant PostedSoFar(items, i, projectId, db.accounts, results, calls, total, now, env)
    {
      ghost var before := db.accounts;
      var r, c := AutoPostTurn(db, items[i], projectId, now, env);
      PostedSoFarNext(items, i, projectId, before, db.accounts, results, calls, r, c, total, now, env);
      results, calls := results + r, calls + c;
      i := i + 1;
    }
    AutoPostedReports(items, projectId, accounts0, now, env);
  }

  // ----- replies -----

  /** Replies to a lead's post or comment through the project's account for
      the lower-cased platform; only Twitter and Instagram take replies. */
  function PostReply(accounts: seq<SocialAccount>, projectId: Id, platform: string, sourceId: string,
                     text: string, net: Net): (a: Attempt<()>)
    ensures LookupSocial(accounts, projectId, ToLower(platform)).None? ==>
      a == Attempt(Failure("No connected " + platform + " account"), [])
    ensures LookupSocial(accounts, projectId, ToLower(platform)).Some? &&
            ToLower(platform) != "twitter" && ToLower(platform) != "instagram" ==>
      a == Attempt(Failure("Replies not supported for " + platform), [])
    ensures LookupSocial(accounts, projectId, ToLower(platform)).Some? && ToLower(platform) == "twitter" ==>
      var token := TokenOf(LookupSocial(accounts, projectId, ToLower(platform)).value);
      && a.calls == [TwitterReply(token, sourceId, text)]
      && (a.result.Success? <==> net.twitterReply(token, sourceId, text).Success?)
      && (a.result.Failure? ==> a.result.error == "Twitter API: " + net.twitterReply(token, sourceId, text).error)
    ensures LookupSocial(accounts, projectId, ToLower(platform)).Some? && ToLower(platform) == "instagram" ==>
      var token := TokenOf(LookupSocial(accounts, projectId, ToLower(platform)).value);
      && a.calls == [InstagramReply(token, sourceId, text)]
      && (a.result.Success? <==> net.instagramReply(token, sourceId, text).Success?)
      && (a.result.Failure? ==> a.result.error == "Instagram API: " + net.instagramReply(token, sourceId, text).error)
    ensures a.result.Success? ==> |a.calls| == 1 && (ToLower(platform) == "twitter" || ToLower(platform) == "instagram")
  {
    var key := ToLower(platform);
    match LookupSocial(accounts, projectId, key)
    case None => Attempt(Failure("No connected " + platform + " account"), [])
    case Some(account) =>
      if key == "twitter" then
        var call := TwitterReply(TokenOf(account), sourceId, text);
        match net.twitterReply(TokenOf(account), sourceId, text)
        case Success(_) => Attempt(Success(()), [call])
        case Failure(e) => Attempt(Failure("Twitter API: " + e), [call])
      else if key == "instagram" then
        var call := InstagramReply(TokenOf(account), sourceId, text);
        match net.instagramReply(TokenOf(account), sourceId, text)
        case Success(_) => Attempt(Success(()), [call])
        case Failure(e) => Attempt(Failure("Instagram API: " + e), [call])
      else
        Attempt(Failure("Replies not supported for " + platform), [])
  }

  /** A lead whose platform is "x" can never be replied to: the lookup key
      stays "x", which no reply route serves. */
  lemma ReplyNeverSucceedsForX(accounts: seq<SocialAccount>, projectId: Id, platform: string,
                               sourceId: string, text: string, net: Net)
    requires ToLower(platform) == "x"
    ensures PostReply(accounts, projectId, platform, sourceId, text, net).result.Failure?
    ensures PostReply(accounts, projectId, platform, sourceId, text, net).calls == []
  {
  }
}
