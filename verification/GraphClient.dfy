/** The Graph client's request loop: one fresh token before each request, retries on throttling and on
    three transient server errors, and waits that follow the server's Retry-After header or back off
    exponentially. The server, the token source and the sleeping are oracles indexed by round. */
module GraphClient {
  import opened RetryAfter
  import opened Wrappers

  const BACKOFF_INITIAL := 1
  const BACKOFF_CAP := 30
  const RETRY_AFTER_CAP := 300
  const ALLOWED_SCHEME := "https"
  const ALLOWED_HOST := "graph.microsoft.com"

  /** How the loop reads a Retry-After header; the program reads it by `ParseRetryAfter`. */
  type Parser = Option<string> -> Header

  datatype Target = NotText | Unsplittable | Split(scheme: string, host: Option<string>)

  predicate Allowed(url: Target) {
    url.Split? && url.scheme == ALLOWED_SCHEME && url.host == Some(ALLOWED_HOST)
  }

  datatype Reply<J> =
    | Answer(status: int, retryAfter: Option<string>, json: Option<J>)
    | ProxyFailure
    | RequestFailure
    | OtherFailure(shape: bool)

  datatype Grant = Granted | Refused(error: int)

  /** `Escaped` stands for an exception that is none of the client's own, nor the token source's; `shape`
      says whether it is a KeyError, TypeError or ValueError, which the provider catches. */
  datatype Outcome<J> =
    | Body(json: J)
    | NoContent
    | NotJson(code: int)
    | NotFound
    | ConsentRequired
    | Throttled(retryAfter: Option<int>)
    | Failed(code: int)
    | ProxyError
    | NetworkError
    | AuthFailed(error: int)
    | UrlRefused
    | Escaped(shape: bool)

  /** What the loop does to the outside, in order. */
  datatype Act = Acquire | Send | Sleep(seconds: int)

  /** The transient server errors that are retried like throttling; a 500 is none. */
  const RETRYABLE_SERVER_STATUSES := {502, 503, 504}

  predicate Retryable(status: int) {
    status == 429 || status == 502 || status == 503 || status == 504
  }

  predicate Throttles<J>(r: Reply<J>) { r.Answer? && r.status == 429 }

  /** The reply asks for another try, and its header can be read. */
  predicate Transient<J>(parse: Parser, r: Reply<J>) {
    r.Answer? && Retryable(r.status) && parse(r.retryAfter) != Overflows
  }

  /** What a reply that is not retried makes of the call. */
  function Final<J>(parse: Parser, r: Reply<J>): Outcome<J>
    requires !Transient(parse, r)
  {
    match r
    case ProxyFailure => ProxyError
    case RequestFailure => NetworkError
    case OtherFailure(shape) => Escaped(shape)
    case Answer(status, _, json) =>
      if status == 204 then NoContent
      else if status == 200 || status == 201 then (if json.Some? then Body(json.value) else NotJson(status))
      else if status == 404 then NotFound
      else if status == 403 then ConsentRequired
      else if Retryable(status) then Escaped(false)
      else Failed(status)
  }

  function Clamped(seconds: int): int {
    if seconds > RETRY_AFTER_CAP then RETRY_AFTER_CAP else seconds
  }

  predicate HasHeader<J>(parse: Parser, r: Reply<J>) {
    r.Answer? && parse(r.retryAfter).Usable?
  }

  /** How many of the first `k` replies came without a usable header. */
  function Headerless<J>(parse: Parser, server: nat -> Reply<J>, k: nat): (c: nat)
    ensures c <= k
  {
    if k == 0 then 0 else Headerless(parse, server, k - 1) + if HasHeader(parse, server(k - 1)) then 0 else 1
  }

  /** The last usable header among the first `k` replies. */
  function LastHeader<J>(parse: Parser, server: nat -> Reply<J>, k: nat): Option<int> {
    if k == 0 then None
    else if HasHeader(parse, server(k - 1)) then Some(Clamped(parse(server(k - 1).retryAfter).seconds))
    else LastHeader(parse, server, k - 1)
  }

  function Pow2(k: nat): nat {
    if k == 0 then 1 else 2 * Pow2(k - 1)
  }

  function Min(a: int, b: int): int { if a <= b then a else b }

  /** The wait after round `k`: what the header says, or the exponential back-off of the rounds without
      one, whatever waits the server dictated in between. */
  function Delay<J>(parse: Parser, server: nat -> Reply<J>, k: nat): int {
    if HasHeader(parse, server(k)) then Clamped(parse(server(k).retryAfter).seconds)
    else Min(Pow2(Headerless(parse, server, k)), BACKOFF_CAP)
  }

  /** Everything done before round `k`. */
  function Script<J>(parse: Parser, server: nat -> Reply<J>, k: nat): seq<Act> {
    if k == 0 then [] else Script(parse, server, k - 1) + [Acquire, Send, Sleep(Delay(parse, server, k - 1))]
  }

  /** Round `k` is followed by another one, the budget permitting. */
  predicate GoesOn<J>(parse: Parser, server: nat -> Reply<J>, tokens: nat -> Grant, k: nat) {
    tokens(k).Granted? && Transient(parse, server(k))
  }

  /** A negative budget is as good as none. */
  function Budget(maxRetries: int): nat {
    if maxRetries < 0 then 0 else maxRetries
  }

  function Exhausted<J>(parse: Parser, server: nat -> Reply<J>, k: nat): Outcome<J>
    requires Transient(parse, server(k))
  {
    if server(k).status == 429 then Throttled(LastHeader(parse, server, k + 1)) else Failed(server(k).status)
  }

  /** A whole call: it ends in round `last`, the first that is not retried or the last one the budget
      allows, after doing what `log` says. */
  ghost predicate IsCall<J>(parse: Parser, maxRetries: int, server: nat -> Reply<J>, tokens: nat -> Grant,
                            outcome: Outcome<J>, log: seq<Act>, last: nat) {
    && last <= Budget(maxRetries)
    && (forall k :: 0 <= k < last ==> GoesOn(parse, server, tokens, k))
    && (last < Budget(maxRetries) ==> !GoesOn(parse, server, tokens, last))
    && log == Script(parse, server, last) + (if tokens(last).Granted? then [Acquire, Send] else [Acquire])
    && outcome == if !tokens(last).Granted? then AuthFailed(tokens(last).error)
                  else if Transient(parse, server(last)) then Exhausted(parse, server, last)
                  else Final(parse, server(last))
  }

  /** A whole request: an address that is not the Graph's own ends it before a token is asked for. */
  ghost predicate IsRequest<J>(parse: Parser, url: Target, maxRetries: int, server: nat -> Reply<J>, tokens: nat -> Grant,
                               outcome: Outcome<J>, log: seq<Act>, last: nat) {
    if Allowed(url) then IsCall(parse, maxRetries, server, tokens, outcome, log, last)
    else log == [] && outcome == if url.Unsplittable? then Escaped(true) else UrlRefused
  }

  function NextBackoff(previous: Option<int>): int {
    if previous == None then BACKOFF_INITIAL else Min(previous.value * 2, BACKOFF_CAP)
  }

  lemma {:induction false} Pow2Grows(k: nat)
    ensures Pow2(k) >= 1 && (k >= 5 ==> Pow2(k) >= 32)
  {
    if k > 5 {
      Pow2Grows(k - 1);
    } else if k > 0 {
      Pow2Grows(k - 1);
      assert k == 5 ==> Pow2(5) == 2 * Pow2(4) && Pow2(4) == 2 * Pow2(3) && Pow2(3) == 2 * Pow2(2)
                        && Pow2(2) == 2 * Pow2(1) && Pow2(1) == 2;
    }
  }

  /** The status ladder of one round; `None` means that the round asks for another one. */
  method Conclude<J>(parse: Parser, reply: Reply<J>) returns (outcome: Option<Outcome<J>>)
    ensures outcome == if Transient(parse, reply) then None else Some(Final(parse, reply))
    ensures outcome == None <==> reply.Answer? && reply.status in {429, 502, 503, 504} && !parse(reply.retryAfter).Overflows?
  {
    match reply {
      case ProxyFailure => return Some(ProxyError);
      case RequestFailure => return Some(NetworkError);
      case OtherFailure(shape) => return Some(Escaped(shape));
      case Answer(status, retryAfter, json) =>
        if status == 204 {
          return Some(NoContent);
        }
        if status == 200 || status == 201 {
          return Some(if json.Some? then Body(json.value) else NotJson(status));
        }
        if status == 404 {
          return Some(NotFound);
        }
        if status == 403 {
          return Some(ConsentRequired);
        }
        if status != 429 && status !in RETRYABLE_SERVER_STATUSES {
          return Some(Failed(status));
        }
        if parse(retryAfter).Overflows? {
          return Some(Escaped(false));
        }
        return None;
    }
  }

  /** `last` is the round in which the call ended: the first that is not retried, or the last one the
      budget allows. */
  method RequestJson<J>(parse: Parser, url: Target, maxRetries: int, server: nat -> Reply<J>, tokens: nat -> Grant)
    returns (outcome: Outcome<J>, log: seq<Act>, last: nat)
    ensures IsRequest(parse, url, maxRetries, server, tokens, outcome, log, last)
  {
    outcome, log, last := UrlRefused, [], 0;
    if url.Unsplittable? {
      return Escaped(true), [], 0;
    }
    if url.NotText? || url.scheme != ALLOWED_SCHEME || url.host != Some(ALLOWED_HOST) {
      return UrlRefused, [], 0;
    }
    var backoff: Option<int> := None;
    var lastSeen: Option<int> := None;
    var attempt := 0;
    while true
      invariant 0 <= attempt <= Budget(maxRetries)
      invariant forall k :: 0 <= k < attempt ==> GoesOn(parse, server, tokens, k)
      invariant log == Script(parse, server, attempt)
      invariant lastSeen == LastHeader(parse, server, attempt)
      invariant backoff == if Headerless(parse, server, attempt) == 0 then None
                           else Some(Min(Pow2(Headerless(parse, server, attempt) - 1), BACKOFF_CAP))
      decreases Budget(maxRetries) - attempt
    {
      last := attempt;
      log := log + [Acquire];
      if tokens(last).Refused? {
        return AuthFailed(tokens(last).error), log, last;
      }
      log := log + [Send];
      assert log == Script(parse, server, last) + [Acquire, Send];
      var reply := server(last);
      var concluded := Conclude(parse, reply);
      if concluded.Some? {
        return concluded.value, log, last;
      }
      attempt := attempt + 1;
      var header := parse(reply.retryAfter);
      var seconds: int;
      if header.Usable? {
        seconds := header.seconds;
        if seconds > RETRY_AFTER_CAP {
          seconds := RETRY_AFTER_CAP;
        }
        lastSeen := Some(seconds);
      } else {
        Pow2Grows(Headerless(parse, server, last));
        seconds := NextBackoff(backoff);
        backoff := Some(seconds);
      }
      if attempt > maxRetries {
        return if reply.status == 429 then Throttled(lastSeen) else Failed(reply.status), log, last;
      }
      log := log + [Sleep(seconds)];
      assert log == Script(parse, server, last) + [Acquire, Send, Sleep(seconds)];
    }
  }
}
