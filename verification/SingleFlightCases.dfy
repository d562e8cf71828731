/** Three runs, event by event, that show what a cancelled follower, a sign-out in mid-flight and a cancelled
    write really do. */
module SingleFlightCases {
  import opened Wrappers
  import opened Scopes
  import opened Accounts
  import opened SingleFlight
  import opened SingleFlightInvariant
  import opened SingleFlightRuns
  import AuthState

  const ANN: string := "a"
  const KEY := Key(ANN, [])
  const SIGNED_IN := AuthState.Account(AuthState.Active, None, None, 0, None)
  const REFRESHING := AuthState.Account(AuthState.SilentRefresh, None, None, 0, None)
  const ADDED := Task(AddAccount(ANN, None, None), KEY, Done(Finished, None))

  /** A manager with one account, the world both runs start from. */
  function OneAccount(): World {
    World(Accounts.Book([ANN], map[ANN := 0], Some(ANN), map[], map[], {}),
          [AccountCell(ANN, SIGNED_IN)], [], [], None, [ADDED], {})
  }

  /** That world with one acquisition under way in front of it. */
  function OneLeader(): World {
    World(Accounts.Book([ANN], map[ANN := 0], Some(ANN), map[KEY := 0], map[KEY := 0], {}),
          [AccountCell(ANN, REFRESHING)], [LockCell(KEY, Some(1))], [FutureCell(KEY, 1, Pending)], None,
          [ADDED, Task(Acquire(ANN, []), KEY, Finding(Lead(0, 0, 0)))], {})
  }

  ghost predicate Goes(w: World, e: Event, v: World) {
    Enabled(w, e) && (Inv(w) ==> Next(w, e) == v)
  }

  /** One more event on a run whose last world is known. */
  lemma Then(ws: seq<World>, es: seq<Event>, w: World, e: Event, v: World) returns (ws': seq<World>, es': seq<Event>)
    requires IsRun(ws, es) && ws[|es|] == w && Goes(w, e, v)
    ensures IsRun(ws', es') && ws' == ws + [v] && es' == es + [e]
  {
    RunInvariant(ws, es, |es|);
    ws', es' := ws + [v], es + [e];
    forall i | 0 <= i < |es'| ensures Steps(ws'[i], es'[i], ws'[i + 1]) {
      if i < |es| { assert Steps(ws[i], es[i], ws[i + 1]); }
    }
  }

  const ADD := AddAccount(ANN, None, None)
  const ACQUIRE := Acquire(ANN, [])

  function Adding(pc: Pc, serializer: Option<nat>, threads: set<nat>): World {
    INIT.(tasks := [Task(ADD, KEY, pc)], serializer := serializer, threads := threads)
  }

  lemma FirstAccount()
    ensures Goes(INIT, Arrive(ADD), Adding(WaitingToWrite(Exchange), None, {}))
    ensures Goes(Adding(WaitingToWrite(Exchange), None, {}), TakeSerializer(0), Adding(Writing(Exchange), Some(0), {0}))
    ensures Goes(Adding(Writing(Exchange), Some(0), {0}), Answer(0, Success("")), OneAccount())
  {
    var v := AdoptIn(Written(Adding(Writing(Exchange), Some(0), {0}), 0), ANN, None);
    assert v.book.objects.Keys == {ANN};
    assert v.book == OneAccount().book;
    assert v.accounts == OneAccount().accounts;
  }

  lemma AnnAdded() returns (ws: seq<World>, es: seq<Event>)
    ensures IsRun(ws, es) && ws[|es|] == OneAccount()
    ensures es == [Arrive(ADD), TakeSerializer(0), Answer(0, Success(""))]
  {
    FirstAccount();
    ws, es := [INIT], [];
    ws, es := Then(ws, es, INIT, Arrive(ADD), Adding(WaitingToWrite(Exchange), None, {}));
    ws, es := Then(ws, es, Adding(WaitingToWrite(Exchange), None, {}), TakeSerializer(0), Adding(Writing(Exchange), Some(0), {0}));
    ws, es := Then(ws, es, Adding(Writing(Exchange), Some(0), {0}), Answer(0, Success("")), OneAccount());
  }

  lemma SetUp() returns (ws: seq<World>, es: seq<Event>)
    ensures IsRun(ws, es) && ws[|es|] == OneLeader()
    ensures es == [Arrive(ADD), TakeSerializer(0), Answer(0, Success("")), Arrive(ACQUIRE)]
  {
    ws, es := AnnAdded();
    ws, es := Then(ws, es, OneAccount(), Arrive(ACQUIRE), OneLeader());
  }

  /** The world of the first run once a second caller follows, with the future and the two calls as
      they stand. */
  function TwoCallers(future: FutureState, lead: Pc): World {
    OneLeader().(futures := [FutureCell(KEY, 1, future)],
                 serializer := if lead.Writing? then Some(1) else None, threads := if lead.Writing? then {1} else {},
                 tasks := [ADDED, Task(ACQUIRE, KEY, lead), Task(ACQUIRE, KEY, Following(0, None))])
  }

  const LEAD := Lead(0, 0, 0)

  lemma FollowerCancelled()
    ensures Goes(TwoCallers(Pending, Finding(LEAD)), Cancel(2), TwoCallers(Killed, Finding(LEAD)))
  {
  }

  lemma LeaderFails() returns (v: World)
    ensures Goes(TwoCallers(Killed, Writing(LEAD)), Answer(1, Success("t")), v)
    ensures |v.tasks| > 1 && v.tasks[1] == Task(ACQUIRE, KEY, Done(InvalidState, Some(0)))
  {
    var w := TwoCallers(Killed, Writing(LEAD));
    var w1 := Update(Written(w, 1), 0, AuthState.MarkActive(None));
    v := FinishLead(w1, 1, Token("t"));
  }

  lemma FollowerGone() returns (ws: seq<World>, es: seq<Event>)
    ensures IsRun(ws, es) && |es| == 6 && ws[6] == TwoCallers(Killed, Finding(LEAD)) && Cancel(1) !in es
  {
    FollowerCancelled();
    ws, es := SetUp();
    ws, es := Then(ws, es, OneLeader(), Arrive(ACQUIRE), TwoCallers(Pending, Finding(LEAD)));
    ws, es := Then(ws, es, TwoCallers(Pending, Finding(LEAD)), Cancel(2), TwoCallers(Killed, Finding(LEAD)));
  }

  /** A cancelled follower costs its leader the token: the leader's own acquisition succeeds, and
      yet the leader, which nobody cancelled, ends with an invalid-state error. */
  lemma CancelledFollowerCostsTheToken() returns (ws: seq<World>, es: seq<Event>)
    ensures IsRun(ws, es) && |es| == 8
    ensures es[7] == Answer(1, Success("t")) && Cancel(1) !in es
    ensures |ws[8].tasks| > 1 && ws[8].tasks[1] == Task(ACQUIRE, KEY, Done(InvalidState, Some(0)))
  {
    var last := LeaderFails();
    ws, es := FollowerGone();
    ws, es := Then(ws, es, TwoCallers(Killed, Finding(LEAD)), Found(1, true), TwoCallers(Killed, Writing(LEAD)));
    ws, es := Then(ws, es, TwoCallers(Killed, Writing(LEAD)), Answer(1, Success("t")), last);
  }

  const OUT := Request.SignOut(ANN)

  /** The second run's worlds: the first leader is still at work while the account goes and comes
      back. */
  function Leaving(out: Pc): World {
    OneLeader().(tasks := OneLeader().tasks + [Task(OUT, KEY, out)])
  }

  function Gone(more: seq<Task>): World {
    World(Accounts.Book([], map[], None, map[], map[], {}),
          [AccountCell(ANN, AuthState.Fresh(None))], [LockCell(KEY, Some(1))], [FutureCell(KEY, 1, Pending)], None,
          OneLeader().tasks + [Task(OUT, KEY, Done(Finished, None))] + more, {})
  }

  function Back(): World {
    Gone([Task(ADD, KEY, Done(Finished, None))]).(
      book := Accounts.Book([ANN], map[ANN := 1], Some(ANN), map[], map[], {}),
      accounts := [AccountCell(ANN, AuthState.Fresh(None)), AccountCell(ANN, SIGNED_IN)])
  }

  function TwoLeaders(): World {
    Back().(book := Accounts.Book([ANN], map[ANN := 1], Some(ANN), map[KEY := 1], map[KEY := 1], {}),
            accounts := [AccountCell(ANN, AuthState.Fresh(None)), AccountCell(ANN, REFRESHING)],
            locks := [LockCell(KEY, Some(1)), LockCell(KEY, Some(4))],
            futures := [FutureCell(KEY, 1, Pending), FutureCell(KEY, 4, Pending)],
            tasks := Back().tasks + [Task(ACQUIRE, KEY, Finding(Lead(1, 1, 1)))])
  }

  lemma Departure()
    ensures Goes(OneLeader(), Arrive(OUT), Leaving(Finding(Removal)))
    ensures Goes(Leaving(Finding(Removal)), Found(2, false), Gone([]))
  {
    DroppedGone();
  }

  lemma DroppedGone()
    ensures SetPc(DropIn(Leaving(Finding(Removal)), ANN), 2, Done(Finished, None)) == Gone([])
  {
    var v := SetPc(DropIn(Leaving(Finding(Removal)), ANN), 2, Done(Finished, None));
    assert v.tasks == Gone([]).tasks;
    assert v.accounts == Gone([]).accounts;
    assert v.book.order == [] && v.book.objects == map[] && v.book.locks == map[] && v.book.inflight == map[];
  }

  function Returning(pc: Pc): World {
    Gone([Task(ADD, KEY, pc)]).(serializer := if pc.Writing? then Some(3) else None, threads := if pc.Writing? then {3} else {})
  }

  lemma StartsReturning()
    ensures Goes(Gone([]), Arrive(ADD), Returning(WaitingToWrite(Exchange)))
    ensures Goes(Returning(WaitingToWrite(Exchange)), TakeSerializer(3), Returning(Writing(Exchange)))
  {
    assert Begin(Gone([]), ADD).tasks == Returning(WaitingToWrite(Exchange)).tasks;
    var u := StartWrite(Returning(WaitingToWrite(Exchange)), 3);
    assert u.tasks == Returning(Writing(Exchange)).tasks;
    assert u.threads == {3};
  }

  lemma Returns()
    ensures Goes(Returning(Writing(Exchange)), Answer(3, Success("")), Back())
  {
    AdoptedBack();
  }

  lemma AdoptedBack()
    ensures SetPc(AdoptIn(Written(Returning(Writing(Exchange)), 3), ANN, None), 3, Done(Finished, None)) == Back()
  {
    var v := SetPc(AdoptIn(Written(Returning(Writing(Exchange)), 3), ANN, None), 3, Done(Finished, None));
    assert v.threads == {};
    assert v.book.objects.Keys == {ANN};
    assert v.book == Back().book;
    assert v.accounts == Back().accounts;
    assert v.tasks == Back().tasks;
  }

  lemma SecondLeader()
    ensures Goes(Back(), Arrive(ACQUIRE), TwoLeaders())
  {
    var v := LineUp(Back(), ACQUIRE);
    assert v.locks == [LockCell(KEY, Some(1)), LockCell(KEY, None)] && v.book.locks == map[KEY := 1];
    assert !Queued(v, 1, 4);
    var u := UnderLock(v, 4, 1);
    assert u.tasks == TwoLeaders().tasks;
    assert u.accounts == TwoLeaders().accounts;
    assert u.locks == TwoLeaders().locks;
    assert u.futures == TwoLeaders().futures;
    assert u.book.inflight == map[KEY := 1];
  }

  lemma OlderLeaderEnds() returns (v: World)
    ensures Goes(TwoLeaders(), Found(1, false), v)
    ensures LeadsKey(v, 4, KEY) && KEY !in v.book.inflight
  {
    var w1 := Update(TwoLeaders(), 0, NOT_IN_CACHE);
    v := FinishLead(w1, 1, Raised(AuthState.Reauth));
  }

  lemma GoneAgain() returns (ws: seq<World>, es: seq<Event>)
    ensures IsRun(ws, es) && |es| == 6 && ws[6] == Gone([]) && forall e :: e in es ==> !e.Cancel?
  {
    Departure();
    ws, es := SetUp();
    ws, es := Then(ws, es, OneLeader(), Arrive(OUT), Leaving(Finding(Removal)));
    ws, es := Then(ws, es, Leaving(Finding(Removal)), Found(2, false), Gone([]));
  }

  lemma BackAgain() returns (ws: seq<World>, es: seq<Event>)
    ensures IsRun(ws, es) && |es| == 9 && ws[9] == Back() && forall e :: e in es ==> !e.Cancel?
  {
    StartsReturning();
    Returns();
    ws, es := GoneAgain();
    ws, es := Then(ws, es, Gone([]), Arrive(ADD), Returning(WaitingToWrite(Exchange)));
    ws, es := Then(ws, es, Returning(WaitingToWrite(Exchange)), TakeSerializer(3), Returning(Writing(Exchange)));
    ws, es := Then(ws, es, Returning(Writing(Exchange)), Answer(3, Success("")), Back());
  }

  /** What a sign-out in mid-flight allows, so that the conditions of `TwoLeadersIff` and `InflightIff` are
      met by real runs: two acquisitions of one key at once under two locks, after which the older
      one's finish takes the younger one's map entry away while it is still running. */
  lemma SignOutAllowsTwoLeaders() returns (ws: seq<World>, es: seq<Event>)
    ensures IsRun(ws, es) && |es| == 11 && forall e :: e in es ==> !e.Cancel?
    ensures LeadsKey(ws[10], 1, KEY) && LeadsKey(ws[10], 4, KEY) && KEY in ws[10].book.inflight
    ensures LeadsKey(ws[11], 4, KEY) && KEY !in ws[11].book.inflight
  {
    SecondLeader();
    var last := OlderLeaderEnds();
    ws, es := BackAgain();
    ws, es := Then(ws, es, Back(), Arrive(ACQUIRE), TwoLeaders());
    ws, es := Then(ws, es, TwoLeaders(), Found(1, false), last);
  }

  /** Two sign-ins, as far as they have come. */
  function SignIns(first: Pc, second: Pc, serializer: Option<nat>, threads: set<nat>): World {
    INIT.(tasks := [Task(ADD, KEY, first), Task(ADD, KEY, second)], serializer := serializer, threads := threads)
  }

  const WAITS := WaitingToWrite(Exchange)
  const WRITES := Writing(Exchange)

  lemma TwoSignIns()
    ensures Goes(Adding(WAITS, None, {}), Arrive(ADD), SignIns(WAITS, WAITS, None, {}))
    ensures Goes(SignIns(WAITS, WAITS, None, {}), TakeSerializer(0), SignIns(WRITES, WAITS, Some(0), {0}))
  {
    assert StartWrite(SignIns(WAITS, WAITS, None, {}), 0).threads == {0};
  }

  lemma FirstSignInCancelled()
    ensures Goes(SignIns(WRITES, WAITS, Some(0), {0}), Cancel(0), SignIns(Done(Cancelled, None), WAITS, None, {0}))
    ensures Goes(SignIns(Done(Cancelled, None), WAITS, None, {0}), TakeSerializer(1), SignIns(Done(Cancelled, None), WRITES, Some(1), {0, 1}))
  {
  }

  lemma FirstWrites() returns (ws: seq<World>, es: seq<Event>)
    ensures IsRun(ws, es) && es == [Arrive(ADD), Arrive(ADD), TakeSerializer(0)] && ws[3] == SignIns(WRITES, WAITS, Some(0), {0})
  {
    FirstAccount();
    TwoSignIns();
    ws, es := [INIT], [];
    ws, es := Then(ws, es, INIT, Arrive(ADD), Adding(WAITS, None, {}));
    ws, es := Then(ws, es, Adding(WAITS, None, {}), Arrive(ADD), SignIns(WAITS, WAITS, None, {}));
    ws, es := Then(ws, es, SignIns(WAITS, WAITS, None, {}), TakeSerializer(0), SignIns(WRITES, WAITS, Some(0), {0}));
  }

  /** What cancelling a write allows, so that `OneWriter` cannot be had without its condition: the executor
      thread of a cancelled sign-in is still at work on the token cache when the next sign-in's
      thread starts. */
  lemma CancelledWriteAllowsTwoWriters() returns (ws: seq<World>, es: seq<Event>)
    ensures IsRun(ws, es) && es == [Arrive(ADD), Arrive(ADD), TakeSerializer(0), Cancel(0), TakeSerializer(1)]
    ensures ws[5] == SignIns(Done(Cancelled, None), WRITES, Some(1), {0, 1})
    ensures |ws[5].threads| == 2 && Orphan(ws[5], 0) && !Orphan(ws[5], 1)
  {
    FirstSignInCancelled();
    ws, es := FirstWrites();
    ws, es := Then(ws, es, SignIns(WRITES, WAITS, Some(0), {0}), Cancel(0), SignIns(Done(Cancelled, None), WAITS, None, {0}));
    ws, es := Then(ws, es, SignIns(Done(Cancelled, None), WAITS, None, {0}), TakeSerializer(1), SignIns(Done(Cancelled, None), WRITES, Some(1), {0, 1}));
  }
}
