/** The OAuth state dictionary and the normalisation of token answers for
    the three platforms' authorization-code flows and Twitter's refresh. */
module OAuth {
  import opened Wrappers
  import opened Records
  import opened External

  /** What the authorization start remembers under a random state key. */
  datatype OAuthState = OAuthState(platform: string, projectId: Id, codeVerifier: Option<string>, createdAt: int)

  /** What a successful code exchange hands back; `userId` is empty except
      for Instagram. */
  datatype Grant = Grant(accessToken: string, refreshToken: string, expiresIn: int,
                         username: string, userId: string, projectId: Id)

  /** The outcome of a refresh. */
  datatype TokenSet = TokenSet(accessToken: string, refreshToken: string, expiresIn: int)

  /** Lifetimes, in seconds, assumed when the server does not send `expires_in`. */
  const TwitterDefaultExpiry: int := 7200
  const LongLivedDefaultExpiry: int := 5184000

  /** `expires_in || d`: a missing or zero lifetime takes the default. */
  function ExpiryOr(e: Option<int>, d: int): int {
    if e.Some? && e.value != 0 then e.value else d
  }

  /** Drops one trailing "#_" that Instagram appends to the state it echoes. */
  function StripStateSuffix(key: string): (r: string)
    ensures |key| >= 2 && key[|key| - 2..] == "#_" ==> r + "#_" == key
    ensures !(|key| >= 2 && key[|key| - 2..] == "#_") ==> r == key
  {
    if |key| >= 2 && key[|key| - 2..] == "#_" then key[..|key| - 2] else key
  }

  /** Twitter's refresh grant. The server may rotate the refresh token; when
      it does not, the one just used stays valid and is kept (section 6 of
      RFC 6749). */
  function RefreshTwitterToken(refreshToken: string, net: Net): (r: Result<TokenSet, string>)
    ensures r.Success? <==> net.refreshTwitter(refreshToken).Success?
    ensures r.Failure? ==> r.error == "Twitter refresh failed: " + net.refreshTwitter(refreshToken).error
    ensures r.Success? ==> r.value.accessToken == net.refreshTwitter(refreshToken).value.accessToken
    ensures r.Success? ==>
      var sent := net.refreshTwitter(refreshToken).value.refreshToken;
      (Present(sent) ==> r.value.refreshToken == sent.value) &&
      (!Present(sent) ==> r.value.refreshToken == refreshToken)
    ensures r.Success? && refreshToken != "" ==> r.value.refreshToken != ""
    ensures r.Success? ==> r.value.expiresIn != 0
    ensures r.Success? ==>
      var sent := net.refreshTwitter(refreshToken).value.expiresIn;
      && (sent.Some? && sent.value != 0 ==> r.value.expiresIn == sent.value)
      && (sent.None? || sent == Some(0) ==> r.value.expiresIn == TwitterDefaultExpiry)
  {
    match net.refreshTwitter(refreshToken)
    case Failure(e) => Failure("Twitter refresh failed: " + e)
    case Success(body) =>
      Success(TokenSet(body.accessToken, OrElse(body.refreshToken, refreshToken),
                       ExpiryOr(body.expiresIn, TwitterDefaultExpiry)))
  }

  /** The state file as a dictionary. */
  class StateStore {
    var states: map<string, OAuthState>

    constructor ()
      ensures states == map[]
    {
      states := map[];
    }

    /** The entry under `key`, or null. */
    function GetState(key: string): Option<OAuthState>
      reads this
    {
      if key in states then Some(states[key]) else None
    }

    method SaveState(key: string, data: OAuthState)
      modifies this
      ensures GetState(key) == Some(data)
      ensures forall k :: k != key ==> GetState(k) == old(GetState(k))
      ensures states == old(states)[key := data]
    {
      states := states[key := data];
    }

    method DeleteState(key: string)
      modifies this
      ensures GetState(key) == None
      ensures forall k :: k != key ==> GetState(k) == old(GetState(k))
      ensures states == old(states) - {key}
    {
      states := states - {key};
    }

    /** Twitter's authorization-code exchange (with the PKCE verifier). */
    method ExchangeTwitterCode(code: string, key: string, net: Net) returns (r: Result<Grant, string>, calls: seq<Call>)
      modifies this
      ensures key !in old(states) || old(states)[key].platform != "twitter" ==>
        r == Failure("Invalid state") && calls == []
      ensures key in old(states) && old(states)[key].platform == "twitter" &&
              net.exchangeCode("twitter", code, OrElse(old(states)[key].codeVerifier, "")).Failure? ==>
        r == Failure("Twitter token exchange failed: " +
                     net.exchangeCode("twitter", code, OrElse(old(states)[key].codeVerifier, "")).error) &&
        calls == [ExchangeCode("twitter", code)]
      ensures key in old(states) && old(states)[key].platform == "twitter" &&
              net.exchangeCode("twitter", code, OrElse(old(states)[key].codeVerifier, "")).Success? ==>
        var body := net.exchangeCode("twitter", code, OrElse(old(states)[key].codeVerifier, "")).value;
        var profile := net.fetchProfile("twitter", body.accessToken);
        && calls == [ExchangeCode("twitter", code), FetchProfile("twitter", body.accessToken)]
        && (r.Success? <==> profile.Success?)
        && (profile.Failure? ==> r == Failure(profile.error))
      ensures r.Failure? ==> states == old(states)
      ensures r.Success? ==>
        key in old(states) && old(states)[key].platform == "twitter" && states == old(states) - {key} &&
        net.exchangeCode("twitter", code, OrElse(old(states)[key].codeVerifier, "")).Success?
      ensures r.Success? ==>
        var body := net.exchangeCode("twitter", code, OrElse(old(states)[key].codeVerifier, "")).value;
        r.value == Grant(body.accessToken, OrElse(body.refreshToken, ""),
                         ExpiryOr(body.expiresIn, TwitterDefaultExpiry),
                         OrElse(net.fetchProfile("twitter", body.accessToken).value.username, "unknown"),
                         "", old(states)[key].projectId)
    {
      var st := GetState(key);
      if st.None? || st.value.platform != "twitter" {
        return Failure("Invalid state"), [];
      }
      calls := [ExchangeCode("twitter", code)];
      var answer := net.exchangeCode("twitter", code, OrElse(st.value.codeVerifier, ""));
      if answer.Failure? {
        return Failure("Twitter token exchange failed: " + answer.error), calls;
      }
      var body := answer.value;
      calls := calls + [FetchProfile("twitter", body.accessToken)];
      var profile := net.fetchProfile("twitter", body.accessToken);
      if profile.Failure? {
        return Failure(profile.error), calls;
      }
      DeleteState(key);
      r := Success(Grant(body.accessToken, OrElse(body.refreshToken, ""),
                         ExpiryOr(body.expiresIn, TwitterDefaultExpiry),
                         OrElse(profile.value.username, "unknown"), "", st.value.projectId));
    }

    /** LinkedIn's authorization-code exchange. */
    method ExchangeLinkedInCode(code: string, key: string, net: Net) returns (r: Result<Grant, string>, calls: seq<Call>)
      modifies this
      ensures key !in old(states) || old(states)[key].platform != "linkedin" ==>
        r == Failure("Invalid state") && calls == []
      ensures key in old(states) && old(states)[key].platform == "linkedin" &&
              net.exchangeCode("linkedin", code, "").Failure? ==>
        r == Failure("LinkedIn token exchange failed: " + net.exchangeCode("linkedin", code, "").error) &&
        calls == [ExchangeCode("linkedin", code)]
      ensures key in old(states) && old(states)[key].platform == "linkedin" &&
              net.exchangeCode("linkedin", code, "").Success? ==>
        var body := net.exchangeCode("linkedin", code, "").value;
        var profile := net.fetchProfile("linkedin", body.accessToken);
        && calls == [ExchangeCode("linkedin", code), FetchProfile("linkedin", body.accessToken)]
        && (r.Success? <==> profile.Success?)
        && (profile.Failure? ==> r == Failure(profile.error))
      ensures r.Failure? ==> states == old(states)
      ensures r.Success? ==>
        key in old(states) && old(states)[key].platform == "linkedin" && states == old(states) - {key} &&
        net.exchangeCode("linkedin", code, "").Success?
      ensures r.Success? ==>
        var body := net.exchangeCode("linkedin", code, "").value;
        var profile := net.fetchProfile("linkedin", body.accessToken).value;
        r.value == Grant(body.accessToken, OrElse(body.refreshToken, ""),
                         ExpiryOr(body.expiresIn, LongLivedDefaultExpiry),
                         OrElse(profile.name, OrElse(profile.givenName, "LinkedIn User")),
                         "", old(states)[key].projectId)
    {
      var st := GetState(key);
      if st.None? || st.value.platform != "linkedin" {
        return Failure("Invalid state"), [];
      }
      calls := [ExchangeCode("linkedin", code)];
      var answer := net.exchangeCode("linkedin", code, "");
      if answer.Failure? {
        return Failure("LinkedIn token exchange failed: " + answer.error), calls;
      }
      var body := answer.value;
      calls := calls + [FetchProfile("linkedin", body.accessToken)];
      var answered := net.fetchProfile("linkedin", body.accessToken);
      if answered.Failure? {
        return Failure(answered.error), calls;
      }
      var profile := answered.value;
      DeleteState(key);
      r := Success(Grant(body.accessToken, OrElse(body.refreshToken, ""),
                         ExpiryOr(body.expiresIn, LongLivedDefaultExpiry),
                         OrElse(profile.name, OrElse(profile.givenName, "LinkedIn User")),
                         "", st.value.projectId));
    }

    /** Instagram's exchange: a short-lived token, then a long-lived one. The
        project comes from the entry under the key without its "#_" suffix
        when there is one; the entry deleted is the one under `key`. */
    method ExchangeInstagramCode(code: string, key: string, net: Net) returns (r: Result<Grant, string>, calls: seq<Call>)
      modifies this
      ensures key !in old(states) || old(states)[key].platform != "instagram" ==>
        r == Failure("Invalid state") && calls == []
      ensures key in old(states) && old(states)[key].platform == "instagram" &&
              net.instagramShortToken(code).Failure? ==>
        r == Failure("Instagram short-lived token failed: " + net.instagramShortToken(code).error) &&
        calls == [ExchangeCode("instagram", code)]
      ensures key in old(states) && old(states)[key].platform == "instagram" &&
              net.instagramShortToken(code).Success? ==>
        var short := net.instagramShortToken(code).value;
        var long := net.instagramLongToken(short.accessToken);
        && (long.Failure? ==>
              r == Failure("Instagram long-lived token failed: " + long.error) &&
              calls == [ExchangeCode("instagram", code), ExchangeLongLived(short.accessToken)])
        && (long.Success? ==>
              var profile := net.fetchProfile("instagram", long.value.accessToken);
              && calls == [ExchangeCode("instagram", code), ExchangeLongLived(short.accessToken),
                           FetchProfile("instagram", long.value.accessToken)]
              && (r.Success? <==> profile.Success?)
              && (profile.Failure? ==> r == Failure(profile.error)))
      ensures r.Failure? ==> states == old(states)
      ensures r.Success? ==>
        key in old(states) && old(states)[key].platform == "instagram" && states == old(states) - {key} &&
        net.instagramShortToken(code).Success? &&
        net.instagramLongToken(net.instagramShortToken(code).value.accessToken).Success?
      ensures r.Success? ==>
        var clean := StripStateSuffix(key);
        r.value.projectId ==
          (if clean != key && clean in old(states) then old(states)[clean].projectId
           else old(states)[key].projectId)
      ensures r.Success? ==>
        var short := net.instagramShortToken(code).value;
        var long := net.instagramLongToken(short.accessToken).value;
        var profile := net.fetchProfile("instagram", long.accessToken).value;
        r.value.accessToken == long.accessToken &&
        r.value.refreshToken == "" &&
        r.value.expiresIn == ExpiryOr(long.expiresIn, LongLivedDefaultExpiry) &&
        r.value.username == OrElse(profile.username, "instagram_user") &&
        r.value.userId == OrElse(short.userId, OrElse(profile.id, ""))
    {
      var st := GetState(key);
      if st.None? || st.value.platform != "instagram" {
        return Failure("Invalid state"), [];
      }
      var projectId := st.value.projectId;
      var clean := StripStateSuffix(key);
      if clean != key {
        var cleanData := GetState(clean);
        if cleanData.Some? {
          projectId := cleanData.value.projectId;
        }
      }
      calls := [ExchangeCode("instagram", code)];
      var shortAnswer := net.instagramShortToken(code);
      if shortAnswer.Failure? {
        return Failure("Instagram short-lived token failed: " + shortAnswer.error), calls;
      }
      var short := shortAnswer.value;
      calls := calls + [ExchangeLongLived(short.accessToken)];
      var longAnswer := net.instagramLongToken(short.accessToken);
      if longAnswer.Failure? {
        return Failure("Instagram long-lived token failed: " + longAnswer.error), calls;
      }
      var long := longAnswer.value;
      calls := calls + [FetchProfile("instagram", long.accessToken)];
      var answered := net.fetchProfile("instagram", long.accessToken);
      if answered.Failure? {
        return Failure(answered.error), calls;
      }
      var profile := answered.value;
      DeleteState(key);
      r := Success(Grant(long.accessToken, "", ExpiryOr(long.expiresIn, LongLivedDefaultExpiry),
                         OrElse(profile.username, "instagram_user"),
                         OrElse(short.userId, OrElse(profile.id, "")), projectId));
    }
  }
}
