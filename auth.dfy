/** The bearer-token cache of the GigaChat adapter (`getAuthToken` and the
    module-level `cachedToken`). The clock and the OAuth exchange are inputs. */
module GigaChatAuth {
  import opened Wrappers
  import opened GigaChatHttp

  /** The JSON body of the OAuth endpoint: `{access_token, expires_at}`. */
  datatype CachedToken = CachedToken(accessToken: string, expiresAt: int)

  /** Seconds of validity a cached token must still have to be reused. */
  const SafetyMargin: int := 60

  /** What one call of `getAuthToken` returns or throws, the cache it leaves,
      and the key it sent to the OAuth endpoint, if it sent a request at all. */
  datatype AuthStep = AuthStep(result: Result<CachedToken, GatewayError>, cache: Option<CachedToken>, sentKey: Option<string>)

  /** One call of `getAuthToken(apiKey)` at time `now` (whole seconds), given the
      cache it finds and the outcome the OAuth exchange would have if it were made. */
  function Authenticate(cache: Option<CachedToken>, now: int, apiKey: string, exchange: HttpOutcome<Option<CachedToken>>): (s: AuthStep)
    // a request is made exactly when the cache holds no token valid beyond the margin, and it carries the key
    ensures s.sentKey.Some? <==> !(cache.Some? && cache.value.expiresAt > now + SafetyMargin)
    ensures s.sentKey.Some? ==> s.sentKey.value == apiKey
    // cache hit: the cached token itself, nothing changes
    ensures s.sentKey.None? ==> s.result == Success(cache.value) && s.cache == cache
    // whatever is returned is what the cache now holds; a throw leaves the cache alone
    ensures s.result.Success? ==> s.cache == Some(s.result.value)
    ensures s.result.Failure? ==> s.cache == cache
    // on a miss, success exactly when the exchange answered ok with a readable body
    ensures s.sentKey.Some? ==> (s.result.Success? <==> exchange.Ok? && exchange.body.Some?)
    ensures s.sentKey.Some? && exchange.Ok? && exchange.body.Some? ==> s.result == Success(exchange.body.value)
    ensures s.sentKey.Some? && exchange.NotOk? ==> s.result == Failure(HttpError(AuthFailurePrefix + exchange.statusText))
    ensures s.sentKey.Some? && exchange.Unreachable? ==> s.result == Failure(NetworkError)
    ensures s.sentKey.Some? && exchange == Ok(None) ==> s.result == Failure(InvalidJson)
  {
    if cache.Some? && cache.value.expiresAt > now + SafetyMargin then
      AuthStep(Success(cache.value), cache, None)
    else
      match exchange
      case Unreachable => AuthStep(Failure(NetworkError), cache, Some(apiKey))
      case NotOk(statusText) => AuthStep(Failure(HttpError(AuthFailurePrefix + statusText)), cache, Some(apiKey))
      case Ok(None) => AuthStep(Failure(InvalidJson), cache, Some(apiKey))
      case Ok(Some(token)) => AuthStep(Success(token), Some(token), Some(apiKey))
  }

  /** The process-wide token cache; one instance stands for the module-level variable. */
  class TokenCache {
    var cachedToken: Option<CachedToken>

    constructor ()
      ensures cachedToken == None
    {
      cachedToken := None;
    }

    /** `getAuthToken(apiKey)`: reuse the cached token or exchange the key for a new one. */
    method GetAuthToken(now: int, apiKey: string, exchange: HttpOutcome<Option<CachedToken>>)
      returns (r: Result<CachedToken, GatewayError>, sentKey: Option<string>)
      modifies this
      ensures AuthStep(r, cachedToken, sentKey) == Authenticate(old(cachedToken), now, apiKey, exchange)
    {
      if cachedToken.Some? && cachedToken.value.expiresAt > now + SafetyMargin {
        return Success(cachedToken.value), None;
      }
      sentKey := Some(apiKey);
      match exchange {
        case Unreachable =>
          r := Failure(NetworkError);
        case NotOk(statusText) =>
          r := Failure(HttpError(AuthFailurePrefix + statusText));
        case Ok(None) =>
          r := Failure(InvalidJson);
        case Ok(Some(token)) =>
          cachedToken := Some(token);
          r := Success(token);
      }
    }
  }

  /** Repeated calls inside the validity window send no further request and keep
      returning the token the first call obtained, whatever the exchange would do. */
  lemma {:induction false} RefreshedTokenIsReused(cache: Option<CachedToken>, t1: int, t2: int, key: string,
                                                 e1: HttpOutcome<Option<CachedToken>>, e2: HttpOutcome<Option<CachedToken>>)
    requires Authenticate(cache, t1, key, e1).result.Success?
    requires Authenticate(cache, t1, key, e1).result.value.expiresAt > t2 + SafetyMargin
    ensures var first := Authenticate(cache, t1, key, e1);
            var second := Authenticate(first.cache, t2, key, e2);
            second.sentKey.None? && second.result == first.result && second.cache == first.cache
  {
  }

  /** The cache is not keyed by `apiKey`: a token obtained with one key is
      handed, without any request, to a caller that passes another. */
  lemma {:induction false} CacheIgnoresApiKey(cache: Option<CachedToken>, t1: int, t2: int, key1: string, key2: string,
                                             e1: HttpOutcome<Option<CachedToken>>, e2: HttpOutcome<Option<CachedToken>>)
    requires cache.None?
    requires e1.Ok? && e1.body.Some? && e1.body.value.expiresAt > t2 + SafetyMargin
    ensures var first := Authenticate(cache, t1, key1, e1);
            var second := Authenticate(first.cache, t2, key2, e2);
            first.sentKey == Some(key1) && second.sentKey.None? && second.result == Success(e1.body.value)
  {
  }

  /** A token that expires within the margin, or exactly at its edge, is refreshed. */
  lemma ExpiryBoundary(token: CachedToken, now: int, key: string, e: HttpOutcome<Option<CachedToken>>)
    requires token.expiresAt == now + 30 || token.expiresAt == now + SafetyMargin
    ensures Authenticate(Some(token), now, key, e).sentKey == Some(key)
  {
  }
}
