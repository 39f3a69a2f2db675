/** `AuthenticationService` (endor-backend/src/service/auth.service.ts): a
    single-slot cache of the bearer token obtained by exchanging the API key
    and secret at `/v1/auth/api-key`.

    The clock and the exchange are not modelled: every call to `Auth` is
    given the current time in milliseconds and the answer the exchange
    endpoint would give if it were asked. */
module Auth {
  import opened Results

  /** An expiration time as `new Date(…)` parses it: a millisecond
      timestamp, or the invalid date, whose `getTime()` is NaN and therefore
      never compares greater than the current time. */
  datatype Expiry = At(millis: int) | InvalidDate

  datatype TokenResponse = TokenResponse(token: string, expirationTime: Expiry)

  /** What the exchange endpoint answers: a token with its expiry, or a
      non-ok response with its status text. */
  datatype Exchange = Granted(token: string, expirationTime: Expiry) | Refused(statusText: string)

  /** The cache test: a slot is served only while the current time is
      strictly before its expiry. */
  predicate IsLive(slot: Option<TokenResponse>, now: int) {
    && slot.Some?
    && slot.value.expirationTime.At?
    && now < slot.value.expirationTime.millis
  }

  /** The effect of one call: the new slot, what the call returns or
      throws, and whether it asked the exchange endpoint. */
  datatype Step = Step(slot: Option<TokenResponse>, result: Result<string, Error>, exchanged: bool)

  /** One call to `auth()` at time `now`, given the slot before it. */
  function AuthStep(slot: Option<TokenResponse>, now: int, exchange: Exchange): (s: Step)
    ensures s.exchanged <==> !IsLive(slot, now)
    ensures s.result.Ok? || s.slot == slot
  {
    if IsLive(slot, now) then Step(slot, Ok(slot.value.token), false)
    else
      match exchange
      case Refused(statusText) => Step(slot, Err(Error("Authentication error: " + statusText)), true)
      case Granted(token, expirationTime) =>
        Step(Some(TokenResponse(token, expirationTime)), Ok(token), true)
  }

  class AuthenticationService {
    /** The cached token, `null` until the first successful exchange. */
    var tokenResponse: Option<TokenResponse>
    /** How many times the exchange endpoint has been asked. */
    ghost var exchanges: nat

    constructor()
      ensures tokenResponse == None && exchanges == 0
    {
      tokenResponse := None;
      exchanges := 0;
    }

    /** `auth()`: the cached token while it is live, otherwise the result
        of one exchange, which replaces the cache only when it succeeds. */
    method Auth(now: int, exchange: Exchange) returns (r: Result<string, Error>)
      modifies this
      ensures var s := AuthStep(old(tokenResponse), now, exchange);
        && r == s.result
        && tokenResponse == s.slot
        && exchanges == old(exchanges) + (if s.exchanged then 1 else 0)
    {
      if tokenResponse.Some? {
        if tokenResponse.value.expirationTime.At? && now < tokenResponse.value.expirationTime.millis {
          return Ok(tokenResponse.value.token);
        }
      }
      exchanges := exchanges + 1;
      match exchange {
        case Refused(statusText) =>
          return Err(Error("Authentication error: " + statusText));
        case Granted(token, expirationTime) =>
          tokenResponse := Some(TokenResponse(token, expirationTime));
          return Ok(tokenResponse.value.token);
      }
    }
  }

  // -----------------------------------------------------------------------
  // Properties of a single call

  /** A live cached token is returned as it is, with no exchange and no change. */
  lemma CacheHit(token: string, expiry: int, now: int, exchange: Exchange)
    requires now < expiry
    ensures AuthStep(Some(TokenResponse(token, At(expiry))), now, exchange)
         == Step(Some(TokenResponse(token, At(expiry))), Ok(token), false)
  {
  }

  /** The test is strict: at the very millisecond of expiry the token is
      stale and an exchange is made. */
  lemma StaleAtExpiry(token: string, expiry: int, exchange: Exchange)
    ensures AuthStep(Some(TokenResponse(token, At(expiry))), expiry, exchange).exchanged
  {
  }

  /** A token whose expiry did not parse is never served from the cache. */
  lemma InvalidDateNeverServed(token: string, now: int, exchange: Exchange)
    ensures AuthStep(Some(TokenResponse(token, InvalidDate)), now, exchange).exchanged
  {
  }

  /** A refused exchange throws "Authentication error: " with the status
      text and leaves the slot as it was, empty or stale. */
  lemma RefusalKeepsSlot(slot: Option<TokenResponse>, now: int, statusText: string)
    requires !IsLive(slot, now)
    ensures AuthStep(slot, now, Refused(statusText))
         == Step(slot, Err(Error("Authentication error: " + statusText)), true)
  {
  }

  /** A granted exchange overwrites the slot and its token is returned,
      even when its expiry is already past: it is not checked again. */
  lemma GrantReturnedUnchecked(slot: Option<TokenResponse>, now: int, token: string, expiry: Expiry)
    requires !IsLive(slot, now)
    ensures AuthStep(slot, now, Granted(token, expiry))
         == Step(Some(TokenResponse(token, expiry)), Ok(token), true)
  {
  }

  // -----------------------------------------------------------------------
  // Properties of a sequence of calls on one service object

  /** One call: the time it is made and what the exchange would answer. */
  datatype Call = Call(now: int, exchange: Exchange)

  /** The slot after a sequence of calls. */
  function SlotAfter(slot: Option<TokenResponse>, calls: seq<Call>): Option<TokenResponse>
    decreases |calls|
  {
    if calls == [] then slot
    else SlotAfter(AuthStep(slot, calls[0].now, calls[0].exchange).slot, calls[1..])
  }

  /** The steps of a sequence of calls, each from the slot the previous
      ones left behind. */
  function Run(slot: Option<TokenResponse>, calls: seq<Call>): (steps: seq<Step>)
    ensures |steps| == |calls|
    decreases |calls|
  {
    if calls == [] then []
    else
      var s := AuthStep(slot, calls[0].now, calls[0].exchange);
      [s] + Run(s.slot, calls[1..])
  }

  /** How many of the steps asked the exchange endpoint. */
  function ExchangeCount(steps: seq<Step>): nat
  {
    if steps == [] then 0
    else (if steps[0].exchanged then 1 else 0) + ExchangeCount(steps[1..])
  }

  /** Once the current time has reached a cached token's expiry, that entry
      is never served again: while the slot still holds it (because every
      exchange since was refused), every call makes a new exchange. */
  lemma {:induction false} ExpiredEntryNeverServed(entry: TokenResponse, calls: seq<Call>, k: nat)
    requires entry.expirationTime.At?
    requires forall j :: 0 <= j < |calls| ==> calls[j].now >= entry.expirationTime.millis
    requires k < |calls|
    requires SlotAfter(Some(entry), calls[..k]) == Some(entry)
    ensures Run(Some(entry), calls)[k].exchanged
  {
    RunPrefix(Some(entry), calls, k);
  }

  /** Step `k` of a run is the step taken from the slot the first `k` calls
      leave behind. */
  lemma {:induction false} RunPrefix(slot: Option<TokenResponse>, calls: seq<Call>, k: nat)
    requires k < |calls|
    ensures Run(slot, calls)[k] == AuthStep(SlotAfter(slot, calls[..k]), calls[k].now, calls[k].exchange)
    decreases k
  {
    if k > 0 {
      var first := AuthStep(slot, calls[0].now, calls[0].exchange);
      assert calls[..k][1..] == calls[1..][..k - 1];
      RunPrefix(first.slot, calls[1..], k - 1);
    }
  }

  /** With nothing live in the cache and every exchange refused, every call
      fails, each one asks the endpoint again, and the slot never changes. */
  lemma {:induction false} RefusalsRetry(slot: Option<TokenResponse>, calls: seq<Call>)
    requires forall j :: 0 <= j < |calls| ==> calls[j].exchange.Refused? && !IsLive(slot, calls[j].now)
    ensures SlotAfter(slot, calls) == slot
    ensures ExchangeCount(Run(slot, calls)) == |calls|
    ensures forall j :: 0 <= j < |calls| ==> Run(slot, calls)[j].result.Err?
    decreases |calls|
  {
    if calls != [] {
      RefusalsRetry(slot, calls[1..]);
    }
  }
}
