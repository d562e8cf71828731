/** What a call of the Graph client can cost and what it can return, whatever the server does. */
module RequestBudget {
  import opened GraphClient
  import opened RetryAfter
  import opened Wrappers

  // ---- what a call can cost ------------------------------------------------------------------------------

  function Sends(log: seq<Act>): nat {
    if log == [] then 0 else Sends(log[..|log| - 1]) + if log[|log| - 1].Send? then 1 else 0
  }

  function Sleeps(log: seq<Act>): nat {
    if log == [] then 0 else Sleeps(log[..|log| - 1]) + if log[|log| - 1].Sleep? then 1 else 0
  }

  /** A negative wait is no wait. */
  function Waited(log: seq<Act>): nat {
    if log == [] then 0 else
      var act := log[|log| - 1];
      Waited(log[..|log| - 1]) + if act.Sleep? && act.seconds > 0 then act.seconds else 0
  }

  /** Each request is sent right after a token was acquired for it, and no wait exceeds the cap. */
  ghost predicate WellPaced(log: seq<Act>) {
    && (forall i :: 0 <= i < |log| && log[i].Send? ==> i > 0 && log[i - 1] == Acquire)
    && (forall i :: 0 <= i < |log| && log[i].Sleep? ==> log[i].seconds <= RETRY_AFTER_CAP)
  }

  lemma Appends(log: seq<Act>, act: Act)
    ensures Sends(log + [act]) == Sends(log) + if act.Send? then 1 else 0
    ensures Sleeps(log + [act]) == Sleeps(log) + if act.Sleep? then 1 else 0
    ensures Waited(log + [act]) == Waited(log) + if act.Sleep? && act.seconds > 0 then act.seconds else 0
  {
    assert (log + [act])[..|log|] == log;
  }

  /** One more round and the wait after it. */
  lemma RoundCosts(log: seq<Act>, seconds: int)
    requires WellPaced(log) && seconds <= RETRY_AFTER_CAP
    ensures var longer := log + [Acquire, Send, Sleep(seconds)];
            && Sends(longer) == Sends(log) + 1 && Sleeps(longer) == Sleeps(log) + 1
            && Waited(longer) <= Waited(log) + RETRY_AFTER_CAP && WellPaced(longer)
  {
    Appends(log, Acquire);
    Appends(log + [Acquire], Send);
    Appends(log + [Acquire] + [Send], Sleep(seconds));
    assert log + [Acquire] + [Send] + [Sleep(seconds)] == log + [Acquire, Send, Sleep(seconds)];
  }

  lemma DelayIsCapped<J>(parse: Parser, server: nat -> Reply<J>, k: nat)
    ensures Delay(parse, server, k) <= RETRY_AFTER_CAP
  {
  }

  lemma {:induction false} ScriptCosts<J>(parse: Parser, server: nat -> Reply<J>, k: nat)
    ensures Sends(Script(parse, server, k)) == k && Sleeps(Script(parse, server, k)) == k
    ensures Waited(Script(parse, server, k)) <= RETRY_AFTER_CAP * k
    ensures WellPaced(Script(parse, server, k))
  {
    if k > 0 {
      ScriptCosts(parse, server, k - 1);
      DelayIsCapped(parse, server, k - 1);
      RoundCosts(Script(parse, server, k - 1), Delay(parse, server, k - 1));
    }
  }

  /** Whatever the server answers, a call with `n` retries sends at most n + 1 requests, each with a
      token acquired just for it, and waits at most n times, never more than the cap and never more
      than n times the cap in all. */
  lemma CallIsBounded<J>(parse: Parser, maxRetries: int, server: nat -> Reply<J>, tokens: nat -> Grant,
                         outcome: Outcome<J>, log: seq<Act>, last: nat)
    requires IsCall(parse, maxRetries, server, tokens, outcome, log, last)
    ensures Sends(log) <= Budget(maxRetries) + 1 && Sleeps(log) <= Budget(maxRetries)
    ensures Waited(log) <= RETRY_AFTER_CAP * Budget(maxRetries)
    ensures WellPaced(log)
    ensures maxRetries <= 0 ==> Sends(log) <= 1 && Waited(log) == 0
  {
    ScriptCosts(parse, server, last);
    var s := Script(parse, server, last);
    Appends(s, Acquire);
    Appends(s + [Acquire], Send);
    assert s + [Acquire] + [Send] == s + [Acquire, Send];
  }

  /** The waits themselves: round `k` is followed by the wait the header asks for, cut at the cap, or
      else by min(2^j, 30) seconds where `j` counts the earlier rounds without a header. */
  lemma {:induction false} WaitAfterRound<J>(parse: Parser, server: nat -> Reply<J>, k: nat, last: nat)
    requires k < last
    ensures |Script(parse, server, last)| == 3 * last && Script(parse, server, last)[3 * k + 2] == Sleep(Delay(parse, server, k))
    decreases last
  {
    ScriptLength(parse, server, last - 1);
    if k < last - 1 { WaitAfterRound(parse, server, k, last - 1); }
  }

  lemma {:induction false} ScriptLength<J>(parse: Parser, server: nat -> Reply<J>, k: nat)
    ensures |Script(parse, server, k)| == 3 * k
  {
    if k > 0 { ScriptLength(parse, server, k - 1); }
  }

  // ---- what a call returns -------------------------------------------------------------------------------

  /** A transient failure within the budget never surfaces: the call ends in the first round whose
      reply is not one, and returns what that reply means. */
  lemma RecoversWithinBudget<J>(parse: Parser, maxRetries: int, server: nat -> Reply<J>, tokens: nat -> Grant,
                                outcome: Outcome<J>, log: seq<Act>, last: nat, k: nat)
    requires IsCall(parse, maxRetries, server, tokens, outcome, log, last)
    requires k <= Budget(maxRetries) && (forall i :: 0 <= i < k ==> GoesOn(parse, server, tokens, i)) && !GoesOn(parse, server, tokens, k)
    ensures last == k
    ensures outcome == if tokens(k).Refused? then AuthFailed(tokens(k).error) else Final(parse, server(k))
  {
    assert k < last ==> GoesOn(parse, server, tokens, k);
    assert last < k ==> GoesOn(parse, server, tokens, last);
  }

  /** Throttling surfaces exactly when the whole budget was used up and the last answer was a 429. */
  lemma ThrottledIff<J>(parse: Parser, maxRetries: int, server: nat -> Reply<J>, tokens: nat -> Grant,
                        outcome: Outcome<J>, log: seq<Act>, last: nat)
    requires IsCall(parse, maxRetries, server, tokens, outcome, log, last)
    ensures outcome.Throttled? <==>
              (forall k :: 0 <= k <= Budget(maxRetries) ==> GoesOn(parse, server, tokens, k)) && Throttles(server(Budget(maxRetries)))
    ensures outcome.Throttled? ==> outcome.retryAfter == LastHeader(parse, server, Budget(maxRetries) + 1)
  {
    if outcome.Throttled? {
      assert GoesOn(parse, server, tokens, last);
    } else if forall k :: 0 <= k <= Budget(maxRetries) ==> GoesOn(parse, server, tokens, k) {
      assert GoesOn(parse, server, tokens, last);
    }
  }

  /** What it then reports is the most recent header it could use, cut at the cap, even one from an
      earlier round. */
  lemma {:induction false} LastHeaderIsLast<J>(parse: Parser, server: nat -> Reply<J>, k: nat)
    ensures LastHeader(parse, server, k) == None <==> forall i :: 0 <= i < k ==> !HasHeader(parse, server(i))
    ensures LastHeader(parse, server, k).Some? ==>
              exists i :: 0 <= i < k && HasHeader(parse, server(i)) && (forall j :: i < j < k ==> !HasHeader(parse, server(j)))
                          && LastHeader(parse, server, k).value == Clamped(parse(server(i).retryAfter).seconds)
  {
    if k > 0 {
      LastHeaderIsLast(parse, server, k - 1);
      if !HasHeader(parse, server(k - 1)) && LastHeader(parse, server, k).Some? {
        var i :| 0 <= i < k - 1 && HasHeader(parse, server(i)) && (forall j :: i < j < k - 1 ==> !HasHeader(parse, server(j)))
                 && LastHeader(parse, server, k - 1).value == Clamped(parse(server(i).retryAfter).seconds);
        assert forall j :: i < j < k ==> !HasHeader(parse, server(j));
      }
    }
  }

  /** What escapes from the conclusion of a round: a failure of the HTTP library that is not a request
      error, or a retryable answer whose header is too large a number for a float. */
  function EscapeOf<J>(parse: Parser, r: Reply<J>): Option<bool> {
    match r
    case OtherFailure(shape) => Some(shape)
    case Answer(status, retryAfter, _) => if Retryable(status) && parse(retryAfter) == Overflows then Some(false) else None
    case _ => None
  }

  /** Round `k` is reached within the budget, gets its token, and lets an exception of that shape escape. */
  ghost predicate EscapesIn<J>(parse: Parser, maxRetries: int, server: nat -> Reply<J>, tokens: nat -> Grant, k: nat, shape: bool) {
    && k <= Budget(maxRetries) && (forall i :: 0 <= i < k ==> GoesOn(parse, server, tokens, i))
    && tokens(k).Granted? && EscapeOf(parse, server(k)) == Some(shape)
  }

  /** Every failure is meant to surface as one of the client's own errors. It does except in exactly
      three cases, told from the inputs alone: an address that cannot be split, and the two kinds of
      reply in the first round that is not retried. */
  lemma EscapesIff<J>(parse: Parser, url: Target, maxRetries: int, server: nat -> Reply<J>, tokens: nat -> Grant,
                      outcome: Outcome<J>, log: seq<Act>, last: nat, shape: bool)
    requires IsRequest(parse, url, maxRetries, server, tokens, outcome, log, last)
    ensures outcome == Escaped(shape) <==>
              (url.Unsplittable? && shape) || (Allowed(url) && exists k: nat :: EscapesIn(parse, maxRetries, server, tokens, k, shape))
  {
    if Allowed(url) {
      if outcome == Escaped(shape) { assert EscapesIn(parse, maxRetries, server, tokens, last, shape); }
      if k: nat :| EscapesIn(parse, maxRetries, server, tokens, k, shape) {
        RecoversWithinBudget(parse, maxRetries, server, tokens, outcome, log, last, k);
      }
    }
  }

  /** A next link such as `https://[` is one that cannot be split: whatever the server and the token source
      would have said, the request ends with an error that is none of the client's own, where every
      other address outside the Graph is refused by one. */
  lemma UnsplittableEscapes<J>(parse: Parser, url: Target, maxRetries: int, server: nat -> Reply<J>, tokens: nat -> Grant,
                               outcome: Outcome<J>, log: seq<Act>, last: nat)
    requires IsRequest(parse, url, maxRetries, server, tokens, outcome, log, last) && !Allowed(url)
    ensures outcome == Escaped(true) <==> url.Unsplittable?
    ensures outcome != Escaped(true) ==> outcome == UrlRefused
    ensures Sends(log) == 0 && Acquire !in log
  {
    EscapesIff(parse, url, maxRetries, server, tokens, outcome, log, last, true);
  }

  lemma OverflowEscapes<J>(parse: Parser, maxRetries: int, server: nat -> Reply<J>, tokens: nat -> Grant,
                           outcome: Outcome<J>, log: seq<Act>, last: nat)
    requires IsCall(parse, maxRetries, server, tokens, outcome, log, last)
    requires tokens(0).Granted? && server(0).Answer? && server(0).status == 429 && parse(server(0).retryAfter) == Overflows
    ensures outcome == Escaped(false)
  {
    assert last > 0 ==> GoesOn(parse, server, tokens, 0);
  }

  /** Such a header is easily written: a one and 320 zeros. A 429 that carries it ends the call with an
      error that is none of the client's own. */
  lemma HugeRetryAfterEscapes<J>(maxRetries: int, server: nat -> Reply<J>, tokens: nat -> Grant,
                                 outcome: Outcome<J>, log: seq<Act>, last: nat)
    requires IsCall(ParseRetryAfter, maxRetries, server, tokens, outcome, log, last)
    requires tokens(0).Granted? && server(0).Answer? && server(0).status == 429
    requires server(0).retryAfter == Some("1" + seq(320, _ => '0'))
    ensures outcome == Escaped(false)
  {
    HugeOverflows(320);
    OverflowEscapes(ParseRetryAfter, maxRetries, server, tokens, outcome, log, last);
  }
}
