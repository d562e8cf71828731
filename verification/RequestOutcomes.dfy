/** What a request of the Graph client ends with, status by status, and how long it waits, in seconds. */
module RequestOutcomes {
  import opened GraphClient
  import opened RequestBudget
  import opened RetryAfter
  import opened Wrappers

  /** The address every request of the application names. */
  const GRAPH := Split("https", Some("graph.microsoft.com"))

  /** A retry is asked for: throttling or a transient server error, with a header that can be read or none. */
  predicate AsksAgain<J>(parse: Parser, r: Reply<J>) {
    r.Answer? && r.status in {429, 502, 503, 504} && !parse(r.retryAfter).Overflows?
  }

  ghost predicate AsksAgainUpTo<J>(parse: Parser, server: nat -> Reply<J>, tokens: nat -> Grant, k: nat) {
    forall i :: 0 <= i < k ==> tokens(i).Granted? && AsksAgain(parse, server(i))
  }

  /** Only that one scheme and host are ever asked. */
  lemma AllowedIff(url: Target)
    ensures Allowed(url) <==> url == GRAPH
  {
  }

  /** What round `k`, reached because all earlier ones asked for a retry, makes of the whole request; `budget`
      is the number of retries. */
  ghost predicate RoundGives<J>(parse: Parser, budget: nat, server: nat -> Reply<J>, tokens: nat -> Grant,
                                outcome: Outcome<J>, last: nat, k: nat) {
    if tokens(k).Refused? then last == k && outcome == AuthFailed(tokens(k).error)
    else match server(k)
      case ProxyFailure => last == k && outcome == ProxyError
      case RequestFailure => last == k && outcome == NetworkError
      case OtherFailure(shape) => last == k && outcome == Escaped(shape)
      case Answer(status, header, json) =>
        if status == 204 then last == k && outcome == NoContent
        else if status == 200 || status == 201 then last == k && outcome == if json.Some? then Body(json.value) else NotJson(status)
        else if status == 404 then last == k && outcome == NotFound
        else if status == 403 then last == k && outcome == ConsentRequired
        else if status !in {429, 502, 503, 504} then last == k && outcome == Failed(status)
        else if parse(header).Overflows? then last == k && outcome == Escaped(false)
        else if k < budget then last > k
        else last == k && if status == 429 then outcome.Throttled? else outcome == Failed(status)
  }

  /** The whole table, for every server and token source. */
  lemma OutcomeTable<J>(parse: Parser, maxRetries: int, server: nat -> Reply<J>, tokens: nat -> Grant,
                        outcome: Outcome<J>, log: seq<Act>, last: nat, k: nat)
    requires IsRequest(parse, GRAPH, maxRetries, server, tokens, outcome, log, last)
    requires AsksAgainUpTo(parse, server, tokens, k) && k <= if maxRetries < 0 then 0 else maxRetries
    ensures RoundGives(parse, if maxRetries < 0 then 0 else maxRetries, server, tokens, outcome, last, k)
  {
    forall i | 0 <= i < k ensures GoesOn(parse, server, tokens, i) { assert AsksAgain(parse, server(i)); }
    assert last < k ==> GoesOn(parse, server, tokens, last);
    assert k < last ==> GoesOn(parse, server, tokens, k);
  }

  /** A first answer whose header can be read, followed by a 200 with a JSON body, gives that body exactly if
      it was throttling or one of the three transient server errors, or had that body itself. A 500 is
      not among them. */
  lemma RetriedIff<J>(parse: Parser, maxRetries: int, server: nat -> Reply<J>, tokens: nat -> Grant,
                      outcome: Outcome<J>, log: seq<Act>, last: nat, json: J)
    requires IsRequest(parse, GRAPH, maxRetries, server, tokens, outcome, log, last) && maxRetries >= 1
    requires tokens(0).Granted? && tokens(1).Granted?
    requires server(0).Answer? && !parse(server(0).retryAfter).Overflows?
    requires server(1).Answer? && server(1).status == 200 && server(1).json == Some(json)
    ensures var s := server(0).status;
            outcome == Body(json) <==> s == 429 || s == 502 || s == 503 || s == 504 || ((s == 200 || s == 201) && server(0).json == Some(json))
  {
    OutcomeTable(parse, maxRetries, server, tokens, outcome, log, last, 0);
    if AsksAgain(parse, server(0)) { OutcomeTable(parse, maxRetries, server, tokens, outcome, log, last, 1); }
  }

  /** An address outside the Graph never gets as far. */
  lemma OthersRefused<J>(parse: Parser, url: Target, maxRetries: int, server: nat -> Reply<J>, tokens: nat -> Grant,
                         outcome: Outcome<J>, log: seq<Act>, last: nat)
    requires IsRequest(parse, url, maxRetries, server, tokens, outcome, log, last)
    ensures url != GRAPH ==> log == [] && outcome == if url.Unsplittable? then Escaped(true) else UrlRefused
    ensures url == GRAPH ==> log != [] && log[0] == Acquire && outcome != UrlRefused
  {
    if url == GRAPH { FirstAct(parse, server, last); }
  }

  lemma {:induction false} FirstAct<J>(parse: Parser, server: nat -> Reply<J>, k: nat)
    ensures Script(parse, server, k) != [] ==> Script(parse, server, k)[0] == Acquire
  {
    if k > 0 { FirstAct(parse, server, k - 1); }
  }

  /** What a request costs: a token and a request for each round, one wait between any two, and no request in a
      round whose token was refused. */
  lemma RequestsSent<J>(parse: Parser, maxRetries: int, server: nat -> Reply<J>, tokens: nat -> Grant,
                        outcome: Outcome<J>, log: seq<Act>, last: nat)
    requires IsRequest(parse, GRAPH, maxRetries, server, tokens, outcome, log, last)
    ensures Sends(log) == last + (if tokens(last).Granted? then 1 else 0) && Sleeps(log) == last
    ensures log[|log| - 1] == if tokens(last).Granted? then Send else Acquire
  {
    ScriptCosts(parse, server, last);
    var s := Script(parse, server, last);
    Appends(s, Acquire);
    Appends(s + [Acquire], Send);
    assert s + [Acquire] + [Send] == s + [Acquire, Send];
  }

  // ---- waits ---------------------------------------------------------------------------------------------

  /** The earlier rounds that came without a header that could be used. */
  ghost function Bare<J>(parse: Parser, server: nat -> Reply<J>, k: nat): set<nat> {
    set i: nat | i < k && !(server(i).Answer? && parse(server(i).retryAfter).Usable?)
  }

  lemma {:induction false} HeaderlessIs<J>(parse: Parser, server: nat -> Reply<J>, k: nat)
    ensures Headerless(parse, server, k) == |Bare(parse, server, k)|
  {
    if k > 0 {
      var p: nat := k - 1;
      HeaderlessIs(parse, server, p);
      assert Bare(parse, server, k) == Bare(parse, server, p) + if HasHeader(parse, server(p)) then {} else {p};
    }
  }

  lemma FirstPowers()
    ensures Pow2(0) == 1 && Pow2(1) == 2 && Pow2(2) == 4 && Pow2(3) == 8 && Pow2(4) == 16
  {
  }

  /** The wait after round `k` of a request that goes on: what the header says, 300 seconds at most, or else 1,
      2, 4, 8, 16 and then always 30 seconds, moving on only with rounds that came without a header. */
  lemma WaitTable<J>(parse: Parser, server: nat -> Reply<J>, k: nat, last: nat)
    requires k < last
    ensures |Script(parse, server, last)| > 3 * k + 2 && Script(parse, server, last)[3 * k + 2].Sleep?
    ensures var seconds, r, bare := Script(parse, server, last)[3 * k + 2].seconds, server(k), |Bare(parse, server, k)|;
            if r.Answer? && parse(r.retryAfter).Usable? then
              seconds == if parse(r.retryAfter).seconds > 300 then 300 else parse(r.retryAfter).seconds
            else
              seconds == if bare == 0 then 1 else if bare == 1 then 2 else if bare == 2 then 4 else if bare == 3 then 8
                         else if bare == 4 then 16 else 30
  {
    WaitAfterRound(parse, server, k, last);
    HeaderlessIs(parse, server, k);
    FirstPowers();
    Pow2Grows(Headerless(parse, server, k));
  }

  /** What throttling that surfaces reports: the last header that could be used, 300 seconds at most. */
  lemma ThrottledReports<J>(parse: Parser, maxRetries: int, server: nat -> Reply<J>, tokens: nat -> Grant,
                            outcome: Outcome<J>, log: seq<Act>, last: nat)
    requires IsRequest(parse, GRAPH, maxRetries, server, tokens, outcome, log, last) && outcome.Throttled?
    ensures outcome.retryAfter == None <==> forall i :: 0 <= i <= last ==> !(server(i).Answer? && parse(server(i).retryAfter).Usable?)
    ensures outcome.retryAfter.Some? ==>
              exists i :: 0 <= i <= last && server(i).Answer? && parse(server(i).retryAfter).Usable?
                && (forall j :: i < j <= last ==> !(server(j).Answer? && parse(server(j).retryAfter).Usable?))
                && outcome.retryAfter.value == if parse(server(i).retryAfter).seconds > 300 then 300 else parse(server(i).retryAfter).seconds
  {
    ThrottledIff(parse, maxRetries, server, tokens, outcome, log, last);
    LastHeaderIsLast(parse, server, last + 1);
    assert GoesOn(parse, server, tokens, last);
    assert forall i: nat :: HasHeader(parse, server(i)) <==> server(i).Answer? && parse(server(i).retryAfter).Usable?;
  }
}
