/** Single flight restored: once an account has no acquisition under way, it is acquired by one call per
    set of scopes at a time until the next sign-out of the account removes its tables. */
module SingleFlightQuiet {
  import opened Wrappers
  import opened Scopes
  import opened Accounts
  import opened SingleFlight
  import opened SingleFlightInvariant
  import opened SingleFlightRuns
  import opened SingleFlightExclusion
  import AuthState
  import Reauthentication

  /** What is true of each acquisition of an account in between: it never waits for the per-key lock,
      and while it leads, the in-flight map holds its key with its own future. */
  ghost predicate QuietTask(w: World, t: nat, a: string)
    requires t < |w.tasks|
  {
    w.tasks[t].request.Acquire? && w.tasks[t].key.account == a ==>
      && !w.tasks[t].pc.WaitingForLock?
      && (w.tasks[t].pc.Following? ==> w.tasks[t].pc.held == None)
      && (Leading(w, t) ==> w.tasks[t].key in w.book.inflight && w.book.inflight[w.tasks[t].key] == w.tasks[t].pc.job.future)
  }

  ghost predicate Quiet(w: World, a: string) {
    forall t :: 0 <= t < |w.tasks| ==> QuietTask(w, t, a)
  }

  /** A quiet account's key that is not in flight has its lock free: nobody is leading under it. */
  lemma FreeKey(w: World, k: Key)
    requires Core(w) && Quiet(w, k.account) && k in w.book.locks && k !in w.book.inflight
    ensures w.locks[w.book.locks[k]].owner == None
    ensures forall t: nat :: !Waits(w, t, w.book.locks[k])
  {
    var l := w.book.locks[k];
    forall t: nat | t < |w.tasks| ensures !Waits(w, t, l) && !HoldsLock(w.tasks[t].pc, l) {
      assert TaskOk(w, t) && QuietTask(w, t, k.account);
    }
  }

  lemma FinishQuietTask(w: World, t: nat, outcome: Outcome, a: string, u: nat)
    requires Busy(w, t) && w.tasks[t].pc.job.Lead? && TaskOk(w, t) && QuietTask(w, t, a)
    requires u < |w.tasks| && TaskOk(w, u) && QuietTask(w, u, a)
    ensures QuietTask(FinishLead(w, t, outcome), u, a)
  {
  }

  lemma FinishQuiet(w: World, t: nat, outcome: Outcome, a: string)
    requires AboutToFinish(w, t) && Quiet(w, a)
    ensures Quiet(FinishLead(w, t, outcome), a)
  {
    forall u | 0 <= u < |w.tasks| ensures QuietTask(FinishLead(w, t, outcome), u, a) {
      assert TaskOk(w, u);
      FinishQuietTask(w, t, outcome, a, u);
    }
  }

  lemma UnderLockQuietTask(w: World, t: nat, l: nat, a: string, u: nat)
    requires AtTheLock(w, t, l) && u < |w.tasks|
    requires w.tasks[t].key.account == a ==> w.tasks[t].key !in w.book.inflight
    requires u == t || QuietTask(w, u, a)
    ensures QuietTask(UnderLock(w, t, l), u, a)
  {
    UnderLockMoves(w, t, l);
  }

  lemma UnderLockQuiet(w: World, t: nat, l: nat, a: string)
    requires AtTheLock(w, t, l)
    requires forall u :: 0 <= u < |w.tasks| && u != t ==> QuietTask(w, u, a)
    requires w.tasks[t].key.account == a ==> w.tasks[t].key !in w.book.inflight
    ensures Quiet(UnderLock(w, t, l), a)
  {
    UnderLockMoves(w, t, l);
    forall u | 0 <= u < |w.tasks| ensures QuietTask(UnderLock(w, t, l), u, a) { UnderLockQuietTask(w, t, l, a, u); }
  }

  lemma LineUpQuiet(w: World, r: Request, a: string)
    requires Core(w) && Quiet(w, a) && r.Acquire? && KeyFor(r) !in w.book.inflight
    ensures var v, l := LineUp(w, r), LockFor(w, KeyFor(r));
            && (forall u :: 0 <= u < |w.tasks| ==> QuietTask(v, u, a))
            && l < |v.locks|
            && (KeyFor(r).account == a ==> v.locks[l].owner == None && !Queued(v, l, |w.tasks|))
  {
    var v, key := LineUp(w, r), KeyFor(r);
    var l := LockFor(w, key);
    forall u | 0 <= u < |w.tasks| ensures QuietTask(v, u, a) && !Waits(v, u, |w.locks|) {
      assert QuietTask(w, u, a) && TaskOk(w, u);
    }
    if key.account == a && key in w.book.locks {
      FreeKey(w, key);
      forall u: nat | u < |w.tasks| ensures !Waits(v, u, l) { assert !Waits(w, u, l) && v.tasks[u] == w.tasks[u]; }
    }
  }

  /** A new task that neither waits nor leads. */
  lemma AddTaskQuiet(w: World, v: World, a: string)
    requires Quiet(w, a) && |v.tasks| == |w.tasks| + 1 && v.tasks[..|w.tasks|] == w.tasks && v.book.inflight == w.book.inflight
    requires QuietTask(v, |w.tasks|, a)
    ensures Quiet(v, a)
  {
    forall u | 0 <= u < |v.tasks| ensures QuietTask(v, u, a) {
      if u < |w.tasks| { assert QuietTask(w, u, a) && v.tasks[u] == v.tasks[..|w.tasks|][u]; }
    }
  }

  lemma ArriveQuiet(w: World, r: Request, a: string)
    requires Core(w) && Quiet(w, a)
    ensures Quiet(Begin(w, r), a)
  {
    var v, t := Begin(w, r), |w.tasks|;
    if r.Acquire? && KeyFor(r) !in w.book.inflight {
      var v1, l := LineUp(w, r), LockFor(w, KeyFor(r));
      LineUpKeeps(w, r);
      LineUpQuiet(w, r, a);
      if v1.locks[l].owner == None && !Queued(v1, l, t) { UnderLockQuiet(v1, t, l, a); }
    } else {
      AddTaskQuiet(w, v, a);
    }
  }

  /** Tasks being the same, only the account's part of the in-flight map matters. */
  lemma BooksQuiet(w: World, v: World, a: string)
    requires Quiet(w, a) && v.tasks == w.tasks
    requires forall k: Key :: k.account == a && k in w.book.inflight ==> k in v.book.inflight && v.book.inflight[k] == w.book.inflight[k]
    ensures Quiet(v, a)
  {
    forall u | 0 <= u < |v.tasks| ensures QuietTask(v, u, a) { assert QuietTask(w, u, a); }
  }

  /** A task that is not a leader moves to a position that neither waits nor leads. */
  lemma MoveQuiet(w: World, v: World, t: nat, a: string)
    requires Quiet(w, a) && t < |w.tasks| && v.book.inflight == w.book.inflight
    requires |v.tasks| == |w.tasks| && v.tasks == w.tasks[t := w.tasks[t].(pc := v.tasks[t].pc)]
    requires v.tasks[t].pc.Done? || (Busy(w, t) && Busy(v, t) && v.tasks[t].pc.job == w.tasks[t].pc.job)
    ensures Quiet(v, a)
  {
    forall u | 0 <= u < |v.tasks| ensures QuietTask(v, u, a) { assert QuietTask(w, u, a); }
  }

  lemma DropQuiet(w: World, b: string, a: string)
    requires Core(w) && Quiet(w, a) && b != a
    ensures Quiet(DropIn(w, b), a)
  {
    DropEffects(w.book, b);
    BooksQuiet(w, DropIn(w, b), a);
  }

  lemma GiveUpQuiet(w: World, t: nat, a: string)
    requires Core(w) && Quiet(w, a) && Busy(w, t) && w.tasks[t].pc.job.Lead?
    ensures Quiet(GiveUp(w, t), a)
  {
    TellKeeps(w, t, Some(NOT_IN_CACHE));
    BooksQuiet(w, Tell(w, t, Some(NOT_IN_CACHE)), a);
    FinishQuiet(Tell(w, t, Some(NOT_IN_CACHE)), t, Raised(AuthState.Reauth), a);
  }

  lemma FailQuiet(w: World, t: nat, outcome: Outcome, a: string)
    requires Core(w) && Quiet(w, a) && Busy(w, t) && TaskOk(w, t)
    ensures Quiet(Fail(w, t, outcome), a)
  {
    if w.tasks[t].pc.job.Lead? { FinishQuiet(w, t, outcome, a); } else { MoveQuiet(w, Fail(w, t, outcome), t, a); }
  }

  lemma FoundQuiet(w: World, t: nat, present: bool, a: string)
    requires Inv(w) && Quiet(w, a) && Enabled(w, Found(t, present)) && !Drops(w, Found(t, present), a)
    ensures Quiet(AfterFind(w, t, present), a)
  {
    assert TaskOk(w, t);
    var v, job, b := AfterFind(w, t, present), w.tasks[t].pc.job, w.tasks[t].request.account;
    if !present && job.Lead? {
      GiveUpQuiet(w, t, a);
    } else if !present && job.Removal? {
      DropQuiet(w, b, a);
      MoveQuiet(DropIn(w, b), v, t, a);
    } else {
      MoveQuiet(w, v, t, a);
    }
  }

  lemma LeadAnswerQuiet(w: World, t: nat, reply: Reply, a: string)
    requires Core(w) && Quiet(w, a) && Busy(w, t) && w.tasks[t].pc.job.Lead?
    ensures Quiet(AfterLeadWrite(w, t, reply), a)
  {
    TellKeeps(w, t, SilentCall(reply));
    BooksQuiet(w, Tell(w, t, SilentCall(reply)), a);
    FinishQuiet(Tell(w, t, SilentCall(reply)), t, SilentOutcome(w.accounts[w.tasks[t].pc.job.subject].view, reply), a);
  }

  lemma OtherAnswerQuiet(w: World, t: nat, reply: Reply, a: string)
    requires Core(w) && Quiet(w, a) && Busy(w, t) && !w.tasks[t].pc.job.Lead?
    requires reply.Success? ==> w.tasks[t].request != Request.SignOut(a)
    ensures Quiet(AfterOtherWrite(w, t, reply), a)
  {
    assert TaskOk(w, t);
    var v, r := AfterOtherWrite(w, t, reply), w.tasks[t].request;
    if r.SignOut? && reply.Success? {
      DropQuiet(w, r.account, a);
      MoveQuiet(DropIn(w, r.account), v, t, a);
    } else {
      MoveQuiet(w, v, t, a);
    }
  }

  lemma AnswerQuiet(w: World, t: nat, reply: Reply, a: string)
    requires Inv(w) && Quiet(w, a) && Enabled(w, Answer(t, reply)) && !Drops(w, Answer(t, reply), a)
    ensures Quiet(Next(w, Answer(t, reply)), a)
  {
    WrittenIsCore(w, t);
    BooksQuiet(w, Written(w, t), a);
    if w.tasks[t].pc.job.Lead? { LeadAnswerQuiet(Written(w, t), t, reply, a); } else { OtherAnswerQuiet(Written(w, t), t, reply, a); }
  }

  lemma CancelQuiet(w: World, t: nat, a: string)
    requires Inv(w) && Quiet(w, a) && Enabled(w, Cancel(t))
    ensures Quiet(OnCancel(w, t), a)
  {
    var v, pc := OnCancel(w, t), w.tasks[t].pc;
    assert TaskOk(w, t);
    if Kills(w, t) {
      BooksQuiet(w, v, a);
    } else if pc.Following? || pc.WaitingForLock? {
      MoveQuiet(w, v, t, a);
    } else {
      LetGoKeeps(w, t);
      BooksQuiet(w, LetGo(w, t), a);
      FailQuiet(LetGo(w, t), t, Cancelled, a);
    }
  }

  lemma TakeLockQuiet(w: World, t: nat, a: string)
    requires Inv(w) && Quiet(w, a) && Enabled(w, TakeLock(t))
    ensures Quiet(Next(w, TakeLock(t)), a)
  {
    assert TaskOk(w, t) && QuietTask(w, t, a);
    UnderLockQuiet(w, t, w.tasks[t].pc.awaited, a);
  }

  lemma QuietStep(w: World, e: Event, a: string)
    requires Inv(w) && Quiet(w, a) && Enabled(w, e) && !Drops(w, e, a)
    ensures Quiet(Next(w, e), a)
  {
    match e
    case Arrive(r) => ArriveQuiet(w, r, a);
    case TakeLock(t) => TakeLockQuiet(w, t, a);
    case Found(t, present) => FoundQuiet(w, t, present, a);
    case FindFails(t) => assert TaskOk(w, t); FailQuiet(w, t, Raised(AuthState.Unclassified), a);
    case TakeSerializer(t) => MoveQuiet(w, Next(w, e), t, a);
    case Answer(t, reply) => AnswerQuiet(w, t, reply, a);
    case Resume(t) => assert TaskOk(w, t); MoveQuiet(w, Next(w, e), t, a);
    case Cancel(t) => CancelQuiet(w, t, a);
    case ThreadEnds(_) => BooksQuiet(w, Next(w, e), a);
    case SwitchTo(_) => BooksQuiet(w, Next(w, e), a);
    case StartWork(_) => BooksQuiet(w, Next(w, e), a);
  }

  // ---- over a run -------------------------------------------------------------------------------------------

  /** Every acquisition of the account has returned. */
  ghost predicate Idle(w: World, a: string) {
    forall t :: 0 <= t < |w.tasks| && w.tasks[t].request.Acquire? && w.tasks[t].request.account == a ==> w.tasks[t].pc.Done?
  }

  /** No sign-out of the account removes its tables from step `j` up to step `i`. */
  ghost predicate Undropped(ws: seq<World>, es: seq<Event>, j: nat, i: nat, a: string)
    requires |ws| == |es| + 1
  {
    forall d: nat :: j <= d < i ==> !DropsAt(ws, es, d, a)
  }

  lemma {:induction false} QuietRun(ws: seq<World>, es: seq<Event>, j: nat, i: nat, a: string)
    requires IsRun(ws, es) && j <= i < |ws| && Idle(ws[j], a) && Undropped(ws, es, j, i, a)
    ensures Quiet(ws[i], a)
    decreases i
  {
    if i == j {
      RunInvariant(ws, es, j);
    } else {
      var p := i - 1;
      QuietRun(ws, es, j, p, a);
      assert Steps(ws[p], es[p], ws[p + 1]);
      assert !DropsAt(ws, es, p, a);
      QuietStep(ws[p], es[p], a);
    }
  }

  lemma QuietLeader(w: World, t: nat, a: string)
    requires Core(w) && Quiet(w, a) && Leading(w, t) && w.tasks[t].key.account == a
    ensures var f := w.tasks[t].pc.job.future;
            w.tasks[t].key in w.book.inflight && w.book.inflight[w.tasks[t].key] == f && f < |w.futures| && w.futures[f].leader == t
  {
    assert TaskOk(w, t) && QuietTask(w, t, a);
  }

  /** At most one acquisition at a time runs per set of scopes of the account, the in-flight map holds a
      key exactly while its leader runs, and the lock is never contended. */
  ghost predicate SingleFlightOf(w: World, a: string) {
    && (forall t: nat, u: nat :: Leading(w, t) && Leading(w, u) && w.tasks[t].key == w.tasks[u].key && w.tasks[t].key.account == a ==> t == u)
    && (forall k: Key :: k.account == a ==> (k in w.book.inflight <==> exists t: nat :: LeadsKey(w, t, k)))
    && (forall t :: 0 <= t < |w.tasks| && w.tasks[t].request.Acquire? && w.tasks[t].request.account == a ==>
          !w.tasks[t].pc.WaitingForLock? && (w.tasks[t].pc.Following? ==> w.tasks[t].pc.held == None))
  }

  lemma QuietIsSingle(w: World, a: string)
    requires Inv(w) && Quiet(w, a)
    ensures SingleFlightOf(w, a)
  {
    forall t: nat, u: nat | Leading(w, t) && Leading(w, u) && w.tasks[t].key == w.tasks[u].key && w.tasks[t].key.account == a
      ensures t == u
    {
      QuietLeader(w, t, a);
      QuietLeader(w, u, a);
    }
    forall k: Key | k.account == a ensures k in w.book.inflight <==> exists t: nat :: LeadsKey(w, t, k) {
      if k in w.book.inflight {
        var t := w.futures[w.book.inflight[k]].leader;
        assert Leads(w, t, w.book.inflight[k]) && TaskOk(w, t);
        assert LeadsKey(w, t, k);
      }
      if t: nat :| LeadsKey(w, t, k) { QuietLeader(w, t, a); }
    }
    forall t | 0 <= t < |w.tasks| && w.tasks[t].request.Acquire? && w.tasks[t].request.account == a
      ensures !w.tasks[t].pc.WaitingForLock? && (w.tasks[t].pc.Following? ==> w.tasks[t].pc.held == None)
    {
      assert QuietTask(w, t, a);
    }
  }

  /** Single flight comes back. From any moment at which the account has no acquisition under way, and for
      as long as no sign-out removes its tables, the account is in single flight, whatever was
      signed out or cancelled before and whatever is cancelled meanwhile. */
  lemma SingleFlightUntilDropped(ws: seq<World>, es: seq<Event>, j: nat, i: nat, a: string)
    requires IsRun(ws, es) && j <= i < |ws| && Idle(ws[j], a) && Undropped(ws, es, j, i, a)
    ensures SingleFlightOf(ws[i], a)
  {
    RunInvariant(ws, es, i);
    QuietRun(ws, es, j, i, a);
    QuietIsSingle(ws[i], a);
  }

  /** A sign-out drops only the account it was asked to. */
  lemma DropWasAskedFor(ws: seq<World>, es: seq<Event>, d: nat, i: nat, a: string)
    requires IsRun(ws, es) && d < i < |ws| && DropsAt(ws, es, d, a)
    ensures Arrive(Request.SignOut(a)) in es[..i]
  {
    var j := ArrivalOf(ws, es, d, es[d].task);
    assert es[..i][j] == es[j];
  }

  /** In particular in every run in which the account has not been signed out. */
  lemma SingleFlightWithoutSignOut(ws: seq<World>, es: seq<Event>, i: nat, a: string)
    requires IsRun(ws, es) && i < |ws| && Arrive(Request.SignOut(a)) !in es[..i]
    ensures SingleFlightOf(ws[i], a)
  {
    forall d: nat | d < i ensures !DropsAt(ws, es, d, a) {
      if DropsAt(ws, es, d, a) { DropWasAskedFor(ws, es, d, i, a); }
    }
    SingleFlightUntilDropped(ws, es, 0, i, a);
  }
}
