/**
 * The courier aggregator's bearer token, cached in the `apiTokens/shiprocket`
 * document: reused while more than 230 of its 240 hours remain, otherwise
 * fetched again with the configured credentials and stored.
 */
module ShiprocketToken {
  import opened JsValue
  import opened Wrappers
  import opened CarrierCall

  const TokenValidityHours: int := 240
  const RefreshThresholdHours: int := 230
  const HourMillis: int := 1000 * 60 * 60

  /** What a call does with the cached document. */
  datatype Plan =
    | UseCached(token: Value)
    | Refresh
    | Fail(error: Failure)   // reading `expiresAt.toMillis()` throws

  /**
   * The cache check: a cached token is reused when it is set, its expiry is set
   * and in the future, and more than 230 hours remain.
   */
  function TokenPlan(doc: Option<map<string, Value>>, now: int): (p: Plan)
    ensures p.UseCached? ==> doc.Some? && Truthy(p.token) && "token" in doc.value && p.token == doc.value["token"]
    ensures p.UseCached? ==> "expiresAt" in doc.value && doc.value["expiresAt"].Stamp?
    ensures p.UseCached? ==> doc.value["expiresAt"].millis - now > RefreshThresholdHours * HourMillis
    ensures doc.None? ==> p == Refresh
    ensures (doc.Some? && "token" in doc.value && Truthy(doc.value["token"]) &&
             "expiresAt" in doc.value && doc.value["expiresAt"].Stamp? &&
             doc.value["expiresAt"].millis - now > RefreshThresholdHours * HourMillis) ==> p == UseCached(doc.value["token"])
  {
    if doc.None? then Refresh
    else
      var token := Get(Obj(doc.value), "token");
      var expiresAt := Get(Obj(doc.value), "expiresAt");
      if !(Truthy(token) && Truthy(expiresAt)) then Refresh
      else if !expiresAt.Stamp? then Fail(PlainError("expiresAt.toMillis is not a function"))
      else if !(expiresAt.millis > now) then Refresh
      else
        var hoursRemaining := (expiresAt.millis - now) as real / (HourMillis as real);
        assert hoursRemaining > RefreshThresholdHours as real <==>
          expiresAt.millis - now > RefreshThresholdHours * HourMillis;
        if hoursRemaining > RefreshThresholdHours as real then UseCached(token) else Refresh
  }

  /** The document a refresh stores: the new token, expiring 240 hours from now. */
  function StoredToken(token: Value, now: int): map<string, Value> {
    map["token" := token, "expiresAt" := Stamp(now + TokenValidityHours * HourMillis), "lastUpdated" := Stamp(now)]
  }

  /** A freshly stored token is reused by exactly the calls made less than ten hours after it was stored. */
  lemma {:induction false} FreshTokenReuse(token: Value, stored: int, now: int)
    requires Truthy(token)
    ensures TokenPlan(Some(StoredToken(token, stored)), now) == UseCached(token) <==> now < stored + 10 * HourMillis
  {
    var doc := StoredToken(token, stored);
    assert Get(Obj(doc), "token") == token;
    assert Get(Obj(doc), "expiresAt") == Stamp(stored + TokenValidityHours * HourMillis);
    var remaining := stored + TokenValidityHours * HourMillis - now;
    assert remaining as real / (HourMillis as real) > RefreshThresholdHours as real
      <==> remaining > RefreshThresholdHours * HourMillis;
  }

  /** `functions.config().shiprocket || { email, password }` from the environment, and the credential check. */
  function Credentials(cfg: Value, envEmail: Value, envPassword: Value): Value {
    Or(cfg, Obj(map["email" := envEmail, "password" := envPassword]))
  }

  predicate CredentialsPresent(creds: Value) {
    Truthy(creds) && Truthy(Get(creds, "email")) && Truthy(Get(creds, "password"))
  }

  const MissingCredentials: Failure :=
    PlainError("Shiprocket credentials not configured. Set firebase functions config or env SHIPROCKET_EMAIL and SHIPROCKET_PASSWORD")

  const NoTokenInReply: Failure := PlainError("Failed to get token from Shiprocket API")

  /** The `apiTokens/shiprocket` document. */
  class TokenCache {
    var doc: Option<map<string, Value>>

    constructor (initial: Option<map<string, Value>>)
      ensures doc == initial
    {
      doc := initial;
    }

    /**
     * `getShiprocketToken`: the cached token when it is still good; otherwise the
     * login call's token, which is then stored.  `login` is what the login call
     * answers; it is consulted only on a refresh with credentials present.
     */
    method GetToken(now: int, cfg: Value, envEmail: Value, envPassword: Value, login: Result<Value, Failure>)
      returns (r: Result<Value, Failure>)
      modifies this
      ensures TokenPlan(old(doc), now).UseCached? ==> r == Ok(TokenPlan(old(doc), now).token) && doc == old(doc)
      ensures TokenPlan(old(doc), now).Fail? ==> r == Err(TokenPlan(old(doc), now).error) && doc == old(doc)
      ensures TokenPlan(old(doc), now).Refresh? && !CredentialsPresent(Credentials(cfg, envEmail, envPassword)) ==>
        r == Err(MissingCredentials) && doc == old(doc)
      ensures TokenPlan(old(doc), now).Refresh? && CredentialsPresent(Credentials(cfg, envEmail, envPassword)) ==>
        match login
        case Err(e) => r == Err(e) && doc == old(doc)
        case Ok(reply) =>
          if Truthy(reply) && Truthy(Get(reply, "token")) then
            r == Ok(Get(reply, "token")) && doc == Some(StoredToken(Get(reply, "token"), now))
          else r == Err(NoTokenInReply) && doc == old(doc)
      ensures r.Ok? ==> Truthy(r.value)
    {
      var plan := TokenPlan(doc, now);
      match plan {
        case UseCached(t) =>
          r := Ok(t);
        case Fail(e) =>
          r := Err(e);
        case Refresh =>
          var creds := Credentials(cfg, envEmail, envPassword);
          if !CredentialsPresent(creds) {
            r := Err(MissingCredentials);
          } else {
            match login {
              case Err(e) =>
                r := Err(e);
              case Ok(reply) =>
                if !Truthy(reply) || !Truthy(Get(reply, "token")) {
                  r := Err(NoTokenInReply);
                } else {
                  var newToken := Get(reply, "token");
                  doc := Some(StoredToken(newToken, now));
                  r := Ok(newToken);
                }
            }
          }
      }
    }
  }
}
