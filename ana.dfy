/** The AnA (authentication and authorization) client that supplies the MQTT
    password. It caches the last token with the moment it expires, hands the
    cached token out while it is fresh, fetches a new one when it is expired or
    when forced, broadcasts every new token, and, when asked to, renews the token
    on its own in a background loop.

    Time is a parameter: `now` is the clock reading in seconds. The HTTP exchange
    is a parameter too: each request's outcome is given as either the decoded
    response or the text of what went wrong. */
module Ana {
  import opened Wrappers
  import opened Ints
  import opened Strings
  import opened Channels

  datatype ErrorSpecialAnA = Initialization(detail: string) | FetchingToken(detail: string) | Reserved

  function AnaErrorText(e: ErrorSpecialAnA): string {
    match e
    case Initialization(d) => "initilization failed due to: [" + d + "]"
    case FetchingToken(d) => "fetching token failed due to: [" + d + "]"
    case Reserved => "reserved"
  }

  /** The decoded reply of the token endpoint; `expiresIn` is taken to be in seconds. */
  datatype Response = Response(tokenType: string, expiresIn: u64, accessToken: string)

  datatype AnaState = AnaState(
    token: string,
    deadline: Option<nat>,          // None: the expiration token is already cancelled
    broadcasts: seq<string>,        // every token sent to the renewal receivers, oldest first
    endpoint: string,
    body: map<string, string>,
    autoRenew: bool)

  /** `is_expired`: the expiration token has been cancelled. Its timer cancels it
      once the token's lifetime has passed. */
  predicate Expired(s: AnaState, now: nat) {
    s.deadline.None? || now >= s.deadline.value
  }

  /** The body posted to the token endpoint. */
  function PostBody(username: string, password: string): map<string, string> {
    map["username" := username, "password" := password, "scope" := "mqtt"]
  }

  /** `new_mqtt`: fails only when the endpoint is not a URL (`parsed` is the
      outcome of parsing it). The token starts empty and already expired. */
  function NewMqtt(parsed: Result<string, string>, username: string, password: string, autoRenew: bool)
    : (r: Result<AnaState, ErrorSpecialAnA>)
    ensures r.Err? <==> parsed.Err?
    ensures r.Err? ==> r.error == Initialization(parsed.error)
    ensures r.Ok? ==> r.value.token == "" && r.value.broadcasts == [] && r.value.endpoint == parsed.value
                      && (forall now :: Expired(r.value, now))
                      && r.value.body.Keys == {"username", "password", "scope"}
                      && r.value.body["scope"] == "mqtt" && r.value.body["username"] == username
                      && r.value.body["password"] == password
  {
    match parsed
    case Err(t) => Err(Initialization(t))
    case Ok(url) => Ok(AnaState("", None, [], url, PostBody(username, password), autoRenew))
  }

  /** `set_internals_on_new_token` followed by the broadcast of the new token. */
  function Install(s: AnaState, token: string, expiresIn: u64, now: nat): AnaState {
    s.(token := token, deadline := Some(now + expiresIn), broadcasts := s.broadcasts + [token])
  }

  /** `fetch_token`: the cached token while it is fresh and not forced, without any
      request; otherwise one request, whose failure leaves everything as it was. */
  function Fetch(s: AnaState, force: bool, now: nat, response: Result<Response, string>)
    : (AnaState, Result<string, ErrorSpecialAnA>)
  {
    if !Expired(s, now) && !force then (s, Ok(s.token))
    else match response
      case Err(t) => (s, Err(FetchingToken(t)))
      case Ok(r) => (Install(s, r.accessToken, r.expiresIn, now), Ok(r.accessToken))
  }

  /** A fresh token is served from the cache: no request is made, so the outcome
      does not depend on the endpoint's answer, and nothing changes. */
  lemma FetchServesFreshToken(s: AnaState, now: nat, a: Result<Response, string>, b: Result<Response, string>)
    requires !Expired(s, now)
    ensures Fetch(s, false, now, a) == Fetch(s, false, now, b) == (s, Ok(s.token))
  {
  }

  /** A successful request installs and broadcasts the new token, which then counts
      as fresh for its whole lifetime and is served from the cache. */
  lemma FetchThenCached(s: AnaState, force: bool, now: nat, r: Response, later: nat, next: Result<Response, string>)
    requires Expired(s, now) || force
    requires now <= later < now + r.expiresIn
    ensures var (s1, out) := Fetch(s, force, now, Ok(r));
            && out == Ok(r.accessToken)
            && s1.broadcasts == s.broadcasts + [r.accessToken]
            && !Expired(s1, later)
            && Fetch(s1, false, later, next) == (s1, Ok(r.accessToken))
  {
  }

  /** A failed request reports why and changes nothing. */
  lemma FetchFailureChangesNothing(s: AnaState, force: bool, now: nat, t: string)
    requires Expired(s, now) || force
    ensures Fetch(s, force, now, Err(t)) == (s, Err(FetchingToken(t)))
  {
  }

  // ---------------------------------------------------------------------------
  // The auto-renewal loop

  /** Seconds between attempts while the endpoint keeps failing. */
  const RETRY_DELAY: nat := 5

  /** How long the renewal loop sleeps after installing a token, as written:
      `expires_in - 30` on a u64, which wraps below zero in a release build (and
      panics in a debug build). */
  function RenewDelayAsWritten(expiresIn: u64): u64 {
    WrappingSubU64(expiresIn, 30)
  }

  /** A token that lives less than 30 seconds makes the loop ask for a sleep of close
      to 2^64 seconds, which tokio caps at a deadline far beyond the token's lifetime:
      nothing is renewed before it expires, although it expires within 30 seconds. */
  lemma RenewDelayAsWrittenOverruns(expiresIn: u64)
    requires expiresIn < 30
    ensures RenewDelayAsWritten(expiresIn) >= U64_LIMIT - 30 > expiresIn
    ensures RenewDelayAsWritten(10) == U64_LIMIT - 20
  {
  }

  /** The intended delay: 30 seconds before expiry, or at once when the token lives
      less than that (`saturating_sub`). */
  function RenewDelay(expiresIn: u64): (d: u64)
    ensures expiresIn >= 30 ==> d == expiresIn - 30
    ensures expiresIn < 30 ==> d == 0
  {
    if expiresIn >= 30 then expiresIn - 30 else 0
  }

  /** The next renewal always starts before the token it replaces expires. */
  lemma RenewalStartsBeforeExpiry(expiresIn: u64)
    requires expiresIn > 0
    ensures RenewDelay(expiresIn) < expiresIn
    ensures expiresIn >= 30 ==> expiresIn - RenewDelay(expiresIn) == 30
  {
  }

  /** One round of the renewal loop: requests until one succeeds, waiting five
      seconds after each failure; the successful token is installed and broadcast
      and the round ends with the time it succeeded and the delay until the next
      round, which `delay` computes from the token's lifetime. With no success
      among `attempts` the loop is still retrying. */
  function RenewWith(s: AnaState, attempts: seq<Result<Response, string>>, now: nat, delay: u64 -> u64)
    : (AnaState, Option<(nat, u64)>)
    decreases |attempts|
  {
    if |attempts| == 0 then (s, None)
    else match attempts[0]
      case Err(_) => RenewWith(s, attempts[1..], now + RETRY_DELAY, delay)
      case Ok(r) => (Install(s, r.accessToken, r.expiresIn, now), Some((now, delay(r.expiresIn))))
  }

  /** The round as written: the next round is due after `expires_in - 30` wrapped. */
  function Renew(s: AnaState, attempts: seq<Result<Response, string>>, now: nat): (AnaState, Option<(nat, u64)>) {
    RenewWith(s, attempts, now, RenewDelayAsWritten)
  }

  /** The round with the corrected delay. */
  function CorrectedRenew(s: AnaState, attempts: seq<Result<Response, string>>, now: nat): (AnaState, Option<(nat, u64)>) {
    RenewWith(s, attempts, now, RenewDelay)
  }

  /** The first successful attempt decides the round: its token is installed at the
      time its turn comes, after five seconds for each earlier failure, and the
      delay is the one computed from its lifetime. */
  lemma {:induction false} RenewTakesFirstSuccess(s: AnaState, attempts: seq<Result<Response, string>>, now: nat, k: nat,
                                                  delay: u64 -> u64)
    requires k < |attempts| && attempts[k].Ok?
    requires forall j :: 0 <= j < k ==> attempts[j].Err?
    ensures var r := attempts[k].value;
            var at := now + RETRY_DELAY * k;
            RenewWith(s, attempts, now, delay) == (Install(s, r.accessToken, r.expiresIn, at), Some((at, delay(r.expiresIn))))
    decreases k
  {
    if k > 0 {
      assert attempts[0].Err?;
      RenewTakesFirstSuccess(s, attempts[1..], now + RETRY_DELAY, k - 1, delay);
      assert attempts[1..][k - 1] == attempts[k];
    }
  }

  /** A round with no success changes nothing. */
  lemma {:induction false} RenewAllFailed(s: AnaState, attempts: seq<Result<Response, string>>, now: nat, delay: u64 -> u64)
    requires forall j :: 0 <= j < |attempts| ==> attempts[j].Err?
    ensures RenewWith(s, attempts, now, delay) == (s, None)
    decreases |attempts|
  {
    if |attempts| > 0 {
      RenewAllFailed(s, attempts[1..], now + RETRY_DELAY, delay);
    }
  }

  /** The delay decides only when the next round starts: both rounds install and
      broadcast the same token at the same time. */
  lemma {:induction false} RoundsInstallAlike(s: AnaState, attempts: seq<Result<Response, string>>, now: nat)
    ensures Renew(s, attempts, now).0 == CorrectedRenew(s, attempts, now).0
    ensures Renew(s, attempts, now).1.None? <==> CorrectedRenew(s, attempts, now).1.None?
    decreases |attempts|
  {
    if |attempts| > 0 && attempts[0].Err? {
      RoundsInstallAlike(s, attempts[1..], now + RETRY_DELAY);
    }
  }

  /** As written, a round whose token lives less than 30 seconds schedules the next
      round for long after that token has expired. */
  lemma RenewAsWrittenOutlivesToken(s: AnaState, attempts: seq<Result<Response, string>>, now: nat, k: nat)
    requires k < |attempts| && attempts[k].Ok? && attempts[k].value.expiresIn < 30
    requires forall j :: 0 <= j < k ==> attempts[j].Err?
    ensures var (s', next) := Renew(s, attempts, now);
            next.Some? && next.value.0 == now + RETRY_DELAY * k
            && s'.deadline == Some(next.value.0 + attempts[k].value.expiresIn)
            && next.value.1 >= U64_LIMIT - 30
            && next.value.0 + next.value.1 > s'.deadline.value
  {
    RenewTakesFirstSuccess(s, attempts, now, k, RenewDelayAsWritten);
    RenewDelayAsWrittenOverruns(attempts[k].value.expiresIn);
  }

  /** With the corrected delay the next round always starts before the installed
      token expires, 30 seconds ahead when the token lives that long. */
  lemma CorrectedRenewBeforeExpiry(s: AnaState, attempts: seq<Result<Response, string>>, now: nat, k: nat)
    requires k < |attempts| && attempts[k].Ok? && attempts[k].value.expiresIn > 0
    requires forall j :: 0 <= j < k ==> attempts[j].Err?
    ensures var (s', next) := CorrectedRenew(s, attempts, now);
            next.Some? && s'.deadline == Some(next.value.0 + attempts[k].value.expiresIn)
            && next.value.0 + next.value.1 < s'.deadline.value
            && (attempts[k].value.expiresIn >= 30 ==> s'.deadline.value - (next.value.0 + next.value.1) == 30)
  {
    RenewTakesFirstSuccess(s, attempts, now, k, RenewDelay);
    RenewalStartsBeforeExpiry(attempts[k].value.expiresIn);
  }

  // ---------------------------------------------------------------------------
  // Renewal receivers

  /** `password_updated` on a renewal receiver: the next broadcast token, or an
      error when the receiver fell behind (the channel keeps one token). */
  function PasswordUpdated(s: AnaState, rx: BroadcastRx): (r: (Option<Result<string, ErrorSpecialAnA>>, BroadcastRx))
    requires rx.next <= |s.broadcasts|
    ensures r.1.next <= |s.broadcasts|
    ensures r.0 == None <==> rx.next == |s.broadcasts|
    ensures r.0.Some? && r.0.value.Ok? ==> r.0.value.value == s.broadcasts[|s.broadcasts| - 1]
  {
    var (got, rx') := BroadcastRecv(s.broadcasts, rx);
    match got
    case Empty => (None, rx')
    case Received(v) => (Some(Ok(v)), rx')
    case Lagged(n) => (Some(Err(FetchingToken(LaggedText(n)))), rx')
  }

  // ---------------------------------------------------------------------------
  // The client object

  class SpecialAnA {
    var token: string
    var deadline: Option<nat>
    var broadcasts: seq<string>
    const endpoint: string
    const body: map<string, string>
    const autoRenew: bool

    function State(): AnaState
      reads this
    {
      AnaState(token, deadline, broadcasts, endpoint, body, autoRenew)
    }

    constructor(init: AnaState)
      ensures State() == init
    {
      token, deadline, broadcasts := init.token, init.deadline, init.broadcasts;
      endpoint, body, autoRenew := init.endpoint, init.body, init.autoRenew;
    }

    method IsExpired(now: nat) returns (b: bool)
      ensures b <==> Expired(State(), now)
    {
      b := deadline.None? || now >= deadline.value;
    }

    method GetToken() returns (t: string)
      ensures t == State().token
    {
      t := token;
    }

    /** `get_token_renewal`: a receiver that will see only tokens broadcast from now on. */
    method GetTokenRenewal() returns (rx: BroadcastRx)
      ensures rx.next == |State().broadcasts|
      ensures PasswordUpdated(State(), rx).0 == None
    {
      rx := BroadcastRx(|broadcasts|);
    }

    method FetchToken(force: bool, now: nat, response: Result<Response, string>) returns (r: Result<string, ErrorSpecialAnA>)
      modifies this
      ensures (State(), r) == Fetch(old(State()), force, now, response)
    {
      var expired := IsExpired(now);
      if !expired && !force {
        r := Ok(token);
        return;
      }
      match response {
        case Err(t) => r := Err(FetchingToken(t));
        case Ok(resp) =>
          token := resp.accessToken;
          deadline := Some(now + resp.expiresIn);
          broadcasts := broadcasts + [resp.accessToken];
          r := Ok(resp.accessToken);
      }
    }

    /** One round of the auto-renewal task's loop, as written. */
    method RenewRound(attempts: seq<Result<Response, string>>, start: nat) returns (outcome: Option<(nat, u64)>)
      modifies this
      ensures (State(), outcome) == Renew(old(State()), attempts, start)
    {
      var i: nat, now: nat := 0, start;
      while i < |attempts| && attempts[i].Err?
        invariant 0 <= i <= |attempts|
        invariant Renew(old(State()), attempts, start) == Renew(old(State()), attempts[i..], now)
        invariant State() == old(State())
      {
        assert attempts[i..][1..] == attempts[i + 1..];
        i, now := i + 1, now + RETRY_DELAY;
      }
      if i == |attempts| {
        outcome := None;
      } else {
        var resp := attempts[i].value;
        token := resp.accessToken;
        deadline := Some(now + resp.expiresIn);
        broadcasts := broadcasts + [resp.accessToken];
        outcome := Some((now, RenewDelayAsWritten(resp.expiresIn)));
      }
    }
  }
}
