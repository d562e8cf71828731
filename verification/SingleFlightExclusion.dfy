/** When the single flight is single: which acquisitions of one key can run at once, and which of them
    the in-flight map stands for. */
module SingleFlightExclusion {
  import opened Wrappers
  import opened Scopes
  import opened Accounts
  import opened SingleFlight
  import opened SingleFlightInvariant
  import opened SingleFlightRuns
  import AuthState
  import Reauthentication

  // ---- what a step does to the lock and in-flight maps ---------------------------------------------------

  /** The event is a sign-out of `a` removing everything kept under the account. */
  ghost predicate Drops(w: World, e: Event, a: string) {
    && (e.Found? || e.Answer?) && Busy(w, e.task) && w.tasks[e.task].request == Request.SignOut(a)
    && if e.Found? then w.tasks[e.task].pc.Finding? && !e.present else e.reply.Success?
  }

  /** The event ends an acquisition of `k`, which takes the key off the in-flight map. */
  ghost predicate Retires(w: World, e: Event, k: Key) {
    && ((e.Found? && !e.present) || e.FindFails? || e.Answer? || e.Cancel?)
    && LeadsKey(w, e.task, k)
  }

  /** The lock a task waits for or holds. */
  function LockRef(pc: Pc): Option<nat> {
    match pc
    case WaitingForLock(l) => Some(l)
    case Following(_, held) => held
    case Done(_, _) => None
    case _ => if pc.job.Lead? then Some(pc.job.lock) else None
  }

  /** Tasks keep to their lock, and a new task's lock is the one its key's entry names. */
  ghost predicate RefsMove(w: World, e: Event, v: World) {
    && |w.tasks| <= |v.tasks| <= |w.tasks| + 1 && |w.locks| <= |v.locks|
    && (|w.tasks| < |v.tasks| ==> e == Arrive(v.tasks[|w.tasks|].request))
    && (forall t :: 0 <= t < |w.tasks| ==>
          && v.tasks[t].key == w.tasks[t].key && v.tasks[t].request == w.tasks[t].request
          && (w.tasks[t].pc.Done? ==> v.tasks[t].pc == w.tasks[t].pc)
          && (LockRef(v.tasks[t].pc) == LockRef(w.tasks[t].pc) || LockRef(v.tasks[t].pc) == None))
    && (forall t :: |w.tasks| <= t < |v.tasks| && LockRef(v.tasks[t].pc).Some? ==>
          v.tasks[t].key in v.book.locks && v.book.locks[v.tasks[t].key] == LockRef(v.tasks[t].pc).value)
  }

  /** An entry of the lock map lasts until its account is dropped; new entries name new locks. */
  ghost predicate LocksMove(w: World, e: Event, v: World) {
    && (forall k: Key :: Drops(w, e, k.account) ==> k !in v.book.locks)
    && (forall k: Key :: k in w.book.locks && !Drops(w, e, k.account) ==> k in v.book.locks && v.book.locks[k] == w.book.locks[k])
    && (forall k: Key :: k in v.book.locks && k !in w.book.locks ==> v.book.locks[k] >= |w.locks|)
  }

  /** An entry of the in-flight map lasts until its account is dropped or some leader of its key
      retires; new entries name new futures, and a new future that is being led is entered. */
  ghost predicate InflightMoves(w: World, e: Event, v: World) {
    && |w.futures| <= |v.futures|
    && (forall k: Key :: Drops(w, e, k.account) || Retires(w, e, k) ==> k !in v.book.inflight)
    && (forall k: Key :: k in w.book.inflight && !Drops(w, e, k.account) && !Retires(w, e, k) ==>
          k in v.book.inflight && v.book.inflight[k] == w.book.inflight[k])
    && (forall k: Key :: k in v.book.inflight && k !in w.book.inflight ==> v.book.inflight[k] >= |w.futures|)
    && (forall f :: |w.futures| <= f < |v.futures| && Leads(v, v.futures[f].leader, f) ==>
          v.futures[f].key in v.book.inflight && v.book.inflight[v.futures[f].key] == f)
  }

  ghost predicate TablesMove(w: World, e: Event, v: World) {
    RefsMove(w, e, v) && LocksMove(w, e, v) && InflightMoves(w, e, v)
  }

  /** A step that changes one task only, without touching the tables. */
  lemma PlainStep(w: World, e: Event, v: World, t: nat)
    requires t < |w.tasks| && !w.tasks[t].pc.Done? && |v.tasks| == |w.tasks| && v.tasks == w.tasks[t := w.tasks[t].(pc := v.tasks[t].pc)]
    requires LockRef(v.tasks[t].pc) == LockRef(w.tasks[t].pc) || LockRef(v.tasks[t].pc) == None
    requires v.book.locks == w.book.locks && v.book.inflight == w.book.inflight
    requires |v.locks| == |w.locks| && |v.futures| == |w.futures|
    requires forall k: Key :: !Drops(w, e, k.account) && !Retires(w, e, k)
    ensures TablesMove(w, e, v)
  {
  }

  /** A step that ends a leader. */
  lemma RetireStep(w: World, e: Event, v: World, t: nat)
    requires Busy(w, t) && w.tasks[t].pc.job.Lead? && |v.tasks| == |w.tasks| && v.tasks == w.tasks[t := w.tasks[t].(pc := v.tasks[t].pc)]
    requires v.tasks[t].pc.Done? && v.book.locks == w.book.locks && v.book.inflight == w.book.inflight - {w.tasks[t].key}
    requires |v.locks| == |w.locks| && |v.futures| == |w.futures|
    requires forall a :: !Drops(w, e, a)
    requires forall k: Key :: Retires(w, e, k) <==> k == w.tasks[t].key
    ensures TablesMove(w, e, v)
  {
  }

  /** A step that drops an account and ends the sign-out. */
  lemma DropStep(w: World, e: Event, v: World, t: nat, a: string)
    requires Core(w) && t < |w.tasks| && !w.tasks[t].pc.Done? && LockRef(w.tasks[t].pc) == None
    requires |v.tasks| == |w.tasks| && v.tasks == w.tasks[t := w.tasks[t].(pc := v.tasks[t].pc)] && v.tasks[t].pc.Done?
    requires v.book == Drop(w.book, a) && |v.locks| == |w.locks| && |v.futures| == |w.futures|
    requires forall b :: Drops(w, e, b) <==> b == a
    requires forall k: Key :: !Retires(w, e, k)
    ensures TablesMove(w, e, v)
  {
    DropEffects(w.book, a);
  }

  /** What going on under the lock changes: one task, and at most one new in-flight entry. */
  ghost predicate LockTaken(w: World, v: World, t: nat, l: nat) {
    && t < |w.tasks| && |v.tasks| == |w.tasks| && v.tasks == w.tasks[t := w.tasks[t].(pc := v.tasks[t].pc)]
    && LockRef(v.tasks[t].pc) in {Some(l), None}
    && v.book.locks == w.book.locks && |v.locks| == |w.locks| && |w.futures| <= |v.futures|
    && (forall k: Key :: k in w.book.inflight ==> k in v.book.inflight && v.book.inflight[k] == w.book.inflight[k])
    && (forall k: Key :: k in v.book.inflight && k !in w.book.inflight ==> v.book.inflight[k] >= |w.futures|)
    && (forall f :: |w.futures| <= f < |v.futures| && Leads(v, v.futures[f].leader, f) ==>
          v.futures[f].key in v.book.inflight && v.book.inflight[v.futures[f].key] == f)
  }

  lemma UnderLockStep(w: World, t: nat, l: nat)
    requires t < |w.tasks| && w.tasks[t].request.Acquire? && l < |w.locks|
    requires forall a :: a in w.book.objects ==> w.book.objects[a] < |w.accounts|
    ensures LockTaken(w, UnderLock(w, t, l), t, l)
  {
  }

  lemma TakeStep(w: World, v: World, t: nat, l: nat)
    requires t < |w.tasks| && w.tasks[t].pc == WaitingForLock(l) && LockTaken(w, v, t, l)
    ensures TablesMove(w, TakeLock(t), v)
  {
  }

  /** A task that has no lock yet. */
  lemma NewTaskStep(w: World, e: Event, v: World, x: Task)
    requires e == Arrive(x.request) && v.tasks == w.tasks + [x] && LockRef(x.pc) == None
    requires v.book.locks == w.book.locks && v.book.inflight == w.book.inflight && v.locks == w.locks && v.futures == w.futures
    ensures TablesMove(w, e, v)
  {
  }

  lemma LineUpStep(w: World, r: Request)
    requires Core(w) && r.Acquire?
    ensures var v, t := LineUp(w, r), |w.tasks|;
            && v.tasks == w.tasks + [Task(r, KeyFor(r), WaitingForLock(LockFor(w, KeyFor(r))))]
            && KeyFor(r) in v.book.locks && v.book.locks[KeyFor(r)] == LockFor(w, KeyFor(r))
            && v.book.inflight == w.book.inflight && v.futures == w.futures && |w.locks| <= |v.locks|
            && (forall k: Key :: k in w.book.locks ==> k in v.book.locks && v.book.locks[k] == w.book.locks[k])
            && (forall k: Key :: k in v.book.locks && k !in w.book.locks ==> v.book.locks[k] >= |w.locks|)
  {
  }

  /** Lining up, and perhaps going on under the lock in the same stretch. */
  lemma LinedUpStep(w: World, r: Request, v1: World, v: World)
    requires Core(w) && r.Acquire? && v1 == LineUp(w, r)
    requires var t := |w.tasks|; |v.tasks| == |v1.tasks| && v.tasks == v1.tasks[t := v1.tasks[t].(pc := v.tasks[t].pc)]
    requires LockRef(v.tasks[|w.tasks|].pc) in {Some(LockFor(w, KeyFor(r))), None}
    requires v.book.locks == v1.book.locks && |v.locks| == |v1.locks| && InflightMoves(v1, Arrive(r), v)
    ensures TablesMove(w, Arrive(r), v)
  {
    LineUpStep(w, r);
  }

  lemma AcquireStep(w: World, r: Request)
    requires Core(w) && r.Acquire? && KeyFor(r) !in w.book.inflight
    ensures TablesMove(w, Arrive(r), Begin(w, r))
  {
    var v1, t, l := LineUp(w, r), |w.tasks|, LockFor(w, KeyFor(r));
    LineUpKeeps(w, r);
    if v1.locks[l].owner == None && !Queued(v1, l, t) {
      UnderLockStep(v1, t, l);
      LinedUpStep(w, r, v1, UnderLock(v1, t, l));
    } else {
      LinedUpStep(w, r, v1, v1);
    }
  }

  lemma ArriveStep(w: World, r: Request)
    requires Core(w)
    ensures TablesMove(w, Arrive(r), Begin(w, r))
  {
    if r.Acquire? && KeyFor(r) !in w.book.inflight {
      AcquireStep(w, r);
    } else {
      NewTaskStep(w, Arrive(r), Begin(w, r), Begin(w, r).tasks[|w.tasks|]);
    }
  }

  lemma TakeLockStep(w: World, t: nat)
    requires Inv(w) && Enabled(w, TakeLock(t))
    ensures TablesMove(w, TakeLock(t), Next(w, TakeLock(t)))
  {
    assert TaskOk(w, t);
    UnderLockStep(w, t, w.tasks[t].pc.awaited);
    TakeStep(w, Next(w, TakeLock(t)), t, w.tasks[t].pc.awaited);
  }

  lemma EndLeadStep(w: World, e: Event, w1: World, outcome: Outcome)
    requires (e.Found? && !e.present) || e.FindFails? || e.Answer? || e.Cancel?
    requires Busy(w, e.task) && w.tasks[e.task].pc.job.Lead? && TaskOk(w, e.task)
    requires w1.tasks == w.tasks && w1.book == w.book && w1.locks == w.locks && w1.futures == w.futures
    ensures TablesMove(w, e, FinishLead(w1, e.task, outcome))
  {
    RetireStep(w, e, FinishLead(w1, e.task, outcome), e.task);
  }

  lemma FoundStep(w: World, t: nat, present: bool)
    requires Inv(w) && Enabled(w, Found(t, present))
    ensures TablesMove(w, Found(t, present), AfterFind(w, t, present))
  {
    assert TaskOk(w, t);
    var e, v, job := Found(t, present), AfterFind(w, t, present), w.tasks[t].pc.job;
    if !present && job.Lead? {
      TellKeeps(w, t, Some(NOT_IN_CACHE));
      EndLeadStep(w, e, Tell(w, t, Some(NOT_IN_CACHE)), Raised(AuthState.Reauth));
    } else if !present && job.Removal? {
      DropStep(w, e, v, t, w.tasks[t].request.account);
    } else {
      PlainStep(w, e, v, t);
    }
  }

  lemma LeadAnswerStep(w: World, w0: World, t: nat, reply: Reply)
    requires Core(w) && Core(w0) && Busy(w, t) && w.tasks[t].pc.job.Lead? && w0 == Written(w, t)
    ensures TablesMove(w, Answer(t, reply), AfterLeadWrite(w0, t, reply))
  {
    assert TaskOk(w, t);
    TellKeeps(w0, t, SilentCall(reply));
    EndLeadStep(w, Answer(t, reply), Tell(w0, t, SilentCall(reply)), SilentOutcome(w0.accounts[w.tasks[t].pc.job.subject].view, reply));
  }

  lemma OtherAnswerStep(w: World, w0: World, t: nat, reply: Reply)
    requires Core(w) && Core(w0) && Busy(w, t) && w.tasks[t].pc.Writing? && !w.tasks[t].pc.job.Lead? && w0 == Written(w, t)
    ensures TablesMove(w, Answer(t, reply), AfterOtherWrite(w0, t, reply))
  {
    assert TaskOk(w, t);
    var e, v := Answer(t, reply), AfterOtherWrite(w0, t, reply);
    if w.tasks[t].pc.job.Removal? && reply.Success? {
      DropStep(w, e, v, t, w.tasks[t].request.account);
    } else {
      PlainStep(w, e, v, t);
    }
  }

  lemma AnswerStep(w: World, t: nat, reply: Reply)
    requires Inv(w) && Enabled(w, Answer(t, reply))
    ensures TablesMove(w, Answer(t, reply), Next(w, Answer(t, reply)))
  {
    WrittenIsCore(w, t);
    if w.tasks[t].pc.job.Lead? {
      LeadAnswerStep(w, Written(w, t), t, reply);
    } else {
      OtherAnswerStep(w, Written(w, t), t, reply);
    }
  }

  lemma CancelLeadStep(w: World, t: nat)
    requires Inv(w) && Leading(w, t)
    ensures TablesMove(w, Cancel(t), OnCancel(w, t))
  {
    assert TaskOk(w, t);
    LetGoKeeps(w, t);
    EndLeadStep(w, Cancel(t), LetGo(w, t), Cancelled);
  }

  lemma CancelOtherStep(w: World, t: nat)
    requires Inv(w) && Enabled(w, Cancel(t)) && !Leading(w, t)
    ensures TablesMove(w, Cancel(t), OnCancel(w, t))
  {
    assert TaskOk(w, t);
    PlainStep(w, Cancel(t), OnCancel(w, t), t);
  }

  lemma FindFailsStep(w: World, t: nat)
    requires Inv(w) && Enabled(w, FindFails(t))
    ensures TablesMove(w, FindFails(t), Next(w, FindFails(t)))
  {
    assert TaskOk(w, t);
    var e := FindFails(t);
    if Leading(w, t) { EndLeadStep(w, e, w, Raised(AuthState.Unclassified)); } else { PlainStep(w, e, Next(w, e), t); }
  }

  /** A step that changes neither the tasks nor the tables of locks and futures. */
  lemma BooksStep(w: World, e: Event, v: World)
    requires v.tasks == w.tasks && v.locks == w.locks && v.futures == w.futures
    requires v.book.locks == w.book.locks && v.book.inflight == w.book.inflight
    requires e.ThreadEnds? || e.SwitchTo? || e.StartWork?
    ensures TablesMove(w, e, v)
  {
  }

  lemma WriteOrResumeStep(w: World, e: Event)
    requires Inv(w) && Enabled(w, e) && (e.TakeSerializer? || e.Resume?)
    ensures TablesMove(w, e, Next(w, e))
  {
    assert TaskOk(w, e.task);
    PlainStep(w, e, Next(w, e), e.task);
  }

  lemma StepTables(w: World, e: Event)
    requires Inv(w) && Enabled(w, e)
    ensures TablesMove(w, e, Next(w, e))
  {
    match e
    case Arrive(r) => ArriveStep(w, r);
    case TakeLock(t) => TakeLockStep(w, t);
    case Found(t, present) => FoundStep(w, t, present);
    case FindFails(t) => FindFailsStep(w, t);
    case TakeSerializer(_) => WriteOrResumeStep(w, e);
    case Answer(t, reply) => AnswerStep(w, t, reply);
    case Resume(_) => WriteOrResumeStep(w, e);
    case Cancel(t) => if Leading(w, t) { CancelLeadStep(w, t); } else { CancelOtherStep(w, t); }
    case _ => BooksStep(w, e, Next(w, e));
  }

  // ---- leaders of one key ---------------------------------------------------------------------------------

  ghost predicate RefsOk(w: World) {
    forall t :: 0 <= t < |w.tasks| && LockRef(w.tasks[t].pc).Some? ==> LockRef(w.tasks[t].pc).value < |w.locks|
  }

  lemma RefsAreLocks(w: World)
    requires Inv(w)
    ensures RefsOk(w)
  {
    forall t | 0 <= t < |w.tasks| && LockRef(w.tasks[t].pc).Some? ensures LockRef(w.tasks[t].pc).value < |w.locks| {
      assert TaskOk(w, t);
    }
  }

  lemma RunTables(ws: seq<World>, es: seq<Event>, i: nat)
    requires IsRun(ws, es) && i < |es|
    ensures RefsOk(ws[i]) && TablesMove(ws[i], es[i], ws[i + 1])
  {
    assert Steps(ws[i], es[i], ws[i + 1]);
    StepTables(ws[i], es[i]);
    RefsAreLocks(ws[i]);
  }

  lemma {:induction false} TasksGrow(ws: seq<World>, es: seq<Event>, j: nat, i: nat)
    requires IsRun(ws, es) && j <= i < |ws|
    ensures |ws[j].tasks| <= |ws[i].tasks|
    decreases i - j
  {
    if j < i {
      RunTables(ws, es, j);
      TasksGrow(ws, es, j + 1, i);
    }
  }

  /** Every task arrived at some step, with its request. */
  lemma {:induction false} ArrivalOf(ws: seq<World>, es: seq<Event>, i: nat, t: nat) returns (j: nat)
    requires IsRun(ws, es) && i < |ws| && t < |ws[i].tasks|
    ensures j < i && |ws[j].tasks| == t < |ws[j + 1].tasks| && es[j] == Arrive(ws[i].tasks[t].request)
  {
    var p := i - 1;
    RunTables(ws, es, p);
    if t < |ws[p].tasks| { j := ArrivalOf(ws, es, p, t); } else { j := p; }
  }

  /** A task that has a lock has had it since it arrived. */
  lemma {:induction false} SameLockBefore(ws: seq<World>, es: seq<Event>, j: nat, i: nat, t: nat)
    requires IsRun(ws, es) && j <= i < |ws| && t < |ws[j].tasks| && t < |ws[i].tasks| && LockRef(ws[i].tasks[t].pc).Some?
    ensures LockRef(ws[j].tasks[t].pc) == LockRef(ws[i].tasks[t].pc) && ws[j].tasks[t].key == ws[i].tasks[t].key
    decreases i - j
  {
    if j < i {
      TasksGrow(ws, es, j, i - 1);
      RunTables(ws, es, i - 1);
      SameLockBefore(ws, es, j, i - 1, t);
    }
  }

  /** Step `d` drops account `a`. */
  ghost predicate DropsAt(ws: seq<World>, es: seq<Event>, d: nat, a: string)
    requires |ws| == |es| + 1
  {
    d < |es| && Drops(ws[d], es[d], a)
  }

  ghost predicate DroppedBetween(ws: seq<World>, es: seq<Event>, j: nat, i: nat, a: string)
    requires |ws| == |es| + 1
  {
    exists d: nat :: j < d < i && DropsAt(ws, es, d, a)
  }

  lemma DroppedLater(ws: seq<World>, es: seq<Event>, j: nat, p: nat, a: string)
    requires |ws| == |es| + 1 && j < p < |es|
    ensures DroppedBetween(ws, es, j, p + 1, a) <==> DroppedBetween(ws, es, j, p, a) || Drops(ws[p], es[p], a)
  {
    assert Drops(ws[p], es[p], a) <==> DropsAt(ws, es, p, a);
  }

  ghost predicate NamesLock(w: World, k: Key, l: Option<nat>) {
    k in w.book.locks && Some(w.book.locks[k]) == l
  }

  lemma NamedAfter(w: World, e: Event, v: World, k: Key, l: nat)
    requires LocksMove(w, e, v) && l < |w.locks|
    ensures NamesLock(v, k, Some(l)) <==> NamesLock(w, k, Some(l)) && !Drops(w, e, k.account)
  {
  }

  /** The lock a task waits for or holds is the one its key's entry names exactly if the account has
      not been dropped since the task arrived. */
  lemma {:induction false} CurrentLockIff(ws: seq<World>, es: seq<Event>, j: nat, i: nat, t: nat)
    requires IsRun(ws, es) && j < i < |ws| && |ws[j].tasks| == t < |ws[j + 1].tasks|
    requires t < |ws[i].tasks| && LockRef(ws[i].tasks[t].pc).Some?
    ensures NamesLock(ws[i], ws[i].tasks[t].key, LockRef(ws[i].tasks[t].pc))
            <==> !DroppedBetween(ws, es, j, i, ws[i].tasks[t].key.account)
    decreases i
  {
    var p := i - 1;
    RunTables(ws, es, p);
    if j < p {
      TasksGrow(ws, es, j + 1, p);
      CurrentLockIff(ws, es, j, p, t);
      NamedAfter(ws[p], es[p], ws[i], ws[i].tasks[t].key, LockRef(ws[i].tasks[t].pc).value);
      DroppedLater(ws, es, j, p, ws[i].tasks[t].key.account);
    }
  }

  /** Two acquisitions of one key run at once only if the account was dropped after the older one began
      and before the younger one did. */
  lemma LeadersApart(ws: seq<World>, es: seq<Event>, i: nat, k: Key, t: nat, u: nat) returns (d: nat)
    requires IsRun(ws, es) && i < |ws| && t < u && LeadsKey(ws[i], t, k) && LeadsKey(ws[i], u, k)
    ensures d < i && DropsAt(ws, es, d, k.account) && t < |ws[d].tasks| <= u
  {
    var a := ArrivalOf(ws, es, i, t);
    var b := ArrivalOf(ws, es, i, u);
    if b < a { TasksGrow(ws, es, b + 1, a); }
    TasksGrow(ws, es, a + 1, b);
    TasksGrow(ws, es, a + 1, b + 1);
    SameLockBefore(ws, es, b + 1, i, t);
    SameLockBefore(ws, es, b + 1, i, u);
    RunTables(ws, es, b);
    CurrentLockIff(ws, es, a, b + 1, t);
    if !DroppedBetween(ws, es, a, b + 1, k.account) {
      OneLeaderPerLock(ws, es, i, t, u);
    }
    d :| a < d < b + 1 && DropsAt(ws, es, d, k.account);
    assert d != b;
    TasksGrow(ws, es, a + 1, d);
    TasksGrow(ws, es, d, b);
  }

  /** Exactly when single flight fails. */
  lemma TwoLeadersIff(ws: seq<World>, es: seq<Event>, i: nat, k: Key)
    requires IsRun(ws, es) && i < |ws|
    ensures (exists t: nat, u: nat :: t != u && LeadsKey(ws[i], t, k) && LeadsKey(ws[i], u, k)) <==>
            (exists t: nat, u: nat, d: nat :: LeadsKey(ws[i], t, k) && LeadsKey(ws[i], u, k)
                                              && d < i && DropsAt(ws, es, d, k.account) && t < |ws[d].tasks| <= u)
  {
    if t: nat, u: nat :| t != u && LeadsKey(ws[i], t, k) && LeadsKey(ws[i], u, k) {
      var older, younger := if t < u then t else u, if t < u then u else t;
      var d := LeadersApart(ws, es, i, k, older, younger);
      assert LeadsKey(ws[i], older, k) && LeadsKey(ws[i], younger, k);
    }
  }

  // ---- what the in-flight map stands for -------------------------------------------------------------------

  /** Step `d` takes the key off the in-flight map. */
  ghost predicate ClearsAt(ws: seq<World>, es: seq<Event>, d: nat, k: Key)
    requires |ws| == |es| + 1
  {
    d < |es| && (Drops(ws[d], es[d], k.account) || Retires(ws[d], es[d], k))
  }

  ghost predicate ClearedBetween(ws: seq<World>, es: seq<Event>, r: nat, i: nat, k: Key)
    requires |ws| == |es| + 1
  {
    exists d: nat :: r < d < i && ClearsAt(ws, es, d, k)
  }

  lemma ClearedLater(ws: seq<World>, es: seq<Event>, r: nat, p: nat, k: Key)
    requires |ws| == |es| + 1 && r < p < |es|
    ensures ClearedBetween(ws, es, r, p + 1, k) <==>
            ClearedBetween(ws, es, r, p, k) || Drops(ws[p], es[p], k.account) || Retires(ws[p], es[p], k)
  {
    assert (Drops(ws[p], es[p], k.account) || Retires(ws[p], es[p], k)) <==> ClearsAt(ws, es, p, k);
  }

  ghost predicate StandsFor(w: World, k: Key, f: nat) {
    k in w.book.inflight && w.book.inflight[k] == f
  }

  lemma StandsAfter(w: World, e: Event, v: World, k: Key, f: nat)
    requires InflightMoves(w, e, v) && f < |w.futures|
    ensures StandsFor(v, k, f) <==> StandsFor(w, k, f) && !Drops(w, e, k.account) && !Retires(w, e, k)
  {
  }

  /** Futures keep their key and leader, and a leader once done with its future stays so. */
  ghost predicate FutureStays(w: World, v: World, f: nat)
    requires f < |w.futures|
  {
    f < |v.futures| && v.futures[f].key == w.futures[f].key && v.futures[f].leader == w.futures[f].leader
    && (Leads(v, v.futures[f].leader, f) ==> Leads(w, w.futures[f].leader, f))
  }

  lemma RunFuture(ws: seq<World>, es: seq<Event>, i: nat, f: nat)
    requires IsRun(ws, es) && i < |es| && f < |ws[i].futures|
    ensures FutureStays(ws[i], ws[i + 1], f)
  {
    RunTables(ws, es, i);
    RunStep(ws, es, i);
    assert FutureOk(ws[i], f);
  }

  lemma StandsForLeader(ws: seq<World>, es: seq<Event>, i: nat, k: Key, f: nat)
    requires IsRun(ws, es) && i < |ws| && StandsFor(ws[i], k, f)
    ensures f < |ws[i].futures| && ws[i].futures[f].key == k && Leads(ws[i], ws[i].futures[f].leader, f)
  {
    RunInvariant(ws, es, i);
  }

  lemma {:induction false} FuturesStay(ws: seq<World>, es: seq<Event>, j: nat, i: nat, f: nat)
    requires IsRun(ws, es) && j <= i < |ws| && f < |ws[j].futures|
    ensures FutureStays(ws[j], ws[i], f)
    decreases i - j
  {
    if j < i {
      RunFuture(ws, es, j, f);
      FuturesStay(ws, es, j + 1, i, f);
    }
  }

  /** The in-flight entry of a key is the future an acquisition registered at step `r` exactly if that
      acquisition still leads and since then neither was the account dropped nor did any leader of
      the key finish. */
  lemma {:induction false} InflightIff(ws: seq<World>, es: seq<Event>, r: nat, i: nat, f: nat)
    requires IsRun(ws, es) && r < i < |ws| && |ws[r].futures| <= f < |ws[r + 1].futures|
    ensures f < |ws[i].futures|
    ensures var k, t := ws[i].futures[f].key, ws[i].futures[f].leader;
            StandsFor(ws[i], k, f) <==> Leads(ws[i], t, f) && !ClearedBetween(ws, es, r, i, k)
    decreases i
  {
    var p := i - 1;
    RunTables(ws, es, p);
    FuturesStay(ws, es, r + 1, i, f);
    var k := ws[i].futures[f].key;
    if StandsFor(ws[i], k, f) { StandsForLeader(ws, es, i, k, f); }
    if r < p {
      FuturesStay(ws, es, r + 1, p, f);
      RunFuture(ws, es, p, f);
      InflightIff(ws, es, r, p, f);
      StandsAfter(ws[p], es[p], ws[i], k, f);
      ClearedLater(ws, es, r, p, k);
    }
  }
}
