/** Every step keeps the invariant of the single-flight protocol, cancellation included. */
module SingleFlightInvariant {
  import opened Wrappers
  import opened Scopes
  import opened Accounts
  import opened SingleFlight
  import AuthErrors
  import AuthState
  import Reauthentication

  // ---- pieces of steps ----------------------------------------------------------------------------

  /** Tasks, futures and locks being the same, only the books have to be checked again. */
  lemma BooksOnly(w: World, v: World)
    requires Core(w) && BookOk(v)
    requires v.tasks == w.tasks && v.futures == w.futures && v.locks == w.locks
    requires |w.accounts| <= |v.accounts|
    requires forall o :: 0 <= o < |w.accounts| ==> v.accounts[o].account == w.accounts[o].account
    ensures Core(v)
  {
    forall t | 0 <= t < |v.tasks| ensures TaskOk(v, t) { assert TaskOk(w, t); }
    forall f | 0 <= f < |v.futures| ensures FutureOk(v, f) { assert FutureOk(w, f); }
  }

  /** Changing what an account-state object says touches nothing else. */
  lemma SetViewKeeps(w: World, o: nat, view: AuthState.Account)
    requires Core(w) && o < |w.accounts|
    ensures Core(SetView(w, o, view))
  {
    BooksOnly(w, SetView(w, o, view));
  }

  lemma UpdateKeeps(w: World, o: nat, call: AuthState.Call)
    requires Core(w) && o < |w.accounts|
    ensures Core(Update(w, o, call))
  {
    SetViewKeeps(w, o, AuthState.Apply(w.accounts[o].view, call));
  }

  lemma DropKeeps(w: World, a: string)
    requires Core(w)
    ensures Core(DropIn(w, a))
  {
    var v := DropIn(w, a);
    assert forall o :: 0 <= o < |w.accounts| ==> v.accounts[o].account == w.accounts[o].account;
    assert BookOk(v);
    BooksOnly(w, v);
  }

  lemma AdoptKeeps(w: World, a: string, hint: Option<string>)
    requires Core(w)
    ensures Core(AdoptIn(w, a, hint))
  {
    var v := AdoptIn(w, a, hint);
    assert v.book.objects == w.book.objects[a := |w.accounts|];
    assert v.book.locks == w.book.locks && v.book.inflight == w.book.inflight;
    assert forall x :: x in w.book.objects ==> w.book.objects[x] < |w.accounts|;
    BooksOnly(w, v);
  }

  /** A task that holds nothing may finish without a future. */
  lemma FinishBareKeeps(w: World, t: nat, o: Outcome)
    requires Core(w) && t < |w.tasks|
    requires (w.tasks[t].pc.WaitingForLock? && o == Cancelled) || (Busy(w, t) && !w.tasks[t].pc.job.Lead?)
    ensures Core(SetPc(w, t, Done(o, None)))
  {
    var v := SetPc(w, t, Done(o, None));
    assert TaskOk(w, t);
    forall u | 0 <= u < |v.tasks| ensures TaskOk(v, u) { assert TaskOk(w, u); }
    forall f | 0 <= f < |v.futures| ensures FutureOk(v, f) { assert FutureOk(w, f); }
  }

  lemma MoveTask(w: World, t: nat, pc: Pc, u: nat)
    requires Busy(w, t) && (pc.WaitingToWrite? || pc.Writing?) && pc.job == w.tasks[t].pc.job
    requires u < |w.tasks| && TaskOk(w, u)
    ensures TaskOk(SetPc(w, t, pc), u)
  {
  }

  /** A busy task may go on to its next busy position. */
  lemma MoveKeeps(w: World, t: nat, pc: Pc)
    requires Core(w) && Busy(w, t) && (pc.WaitingToWrite? || pc.Writing?) && pc.job == w.tasks[t].pc.job
    ensures Core(SetPc(w, t, pc))
  {
    var v := SetPc(w, t, pc);
    forall u | 0 <= u < |v.tasks| ensures TaskOk(v, u) { assert TaskOk(w, u); MoveTask(w, t, pc, u); }
    forall f | 0 <= f < |v.futures| ensures FutureOk(v, f) { assert FutureOk(w, f); }
  }

  /** A leader about to publish: what the invariant says of it. */
  ghost predicate AboutToFinish(w: World, t: nat) {
    Core(w) && Busy(w, t) && w.tasks[t].pc.job.Lead? && TaskOk(w, t)
  }

  /** What a leader tells its account-state object, and the serializer, are no concern of the core. */
  lemma TellKeeps(w: World, t: nat, call: Option<AuthState.Call>)
    requires Core(w) && Busy(w, t) && w.tasks[t].pc.job.Lead?
    ensures w.tasks[t].pc.job.subject < |w.accounts| && w.tasks[t].key == Tell(w, t, call).tasks[t].key
    ensures AboutToFinish(Tell(w, t, call), t)
  {
    assert TaskOk(w, t);
    if call.Some? { UpdateKeeps(w, w.tasks[t].pc.job.subject, call.value); }
    assert TaskOk(Tell(w, t, call), t);
  }

  lemma LetGoKeeps(w: World, t: nat)
    requires Core(w) && Busy(w, t)
    ensures Core(LetGo(w, t)) && TaskOk(LetGo(w, t), t)
  {
    assert TaskOk(w, t);
    BooksOnly(w, LetGo(w, t));
  }

  lemma FinishLeadBook(w: World, t: nat, outcome: Outcome)
    requires AboutToFinish(w, t)
    ensures BookOk(FinishLead(w, t, outcome))
  {
    var v := FinishLead(w, t, outcome);
    var f := w.tasks[t].pc.job.future;
    forall k | k in v.book.inflight
      ensures v.book.inflight[k] < |v.futures| && v.futures[v.book.inflight[k]].key == k
      ensures Leads(v, v.futures[v.book.inflight[k]].leader, v.book.inflight[k])
    {
      assert k in w.book.inflight && k != w.tasks[t].key && Leads(w, w.futures[w.book.inflight[k]].leader, w.book.inflight[k]);
    }
  }

  lemma FinishLeadTask(w: World, t: nat, outcome: Outcome, u: nat)
    requires Busy(w, t) && w.tasks[t].pc.job.Lead? && TaskOk(w, t) && u < |w.tasks| && TaskOk(w, u)
    ensures TaskOk(FinishLead(w, t, outcome), u)
  {
  }

  lemma FinishLeadFuture(w: World, t: nat, outcome: Outcome, f: nat)
    requires AboutToFinish(w, t) && f < |w.futures|
    ensures FutureOk(FinishLead(w, t, outcome), f)
  {
    assert FutureOk(w, f);
  }

  lemma FinishLeadKeeps(w: World, t: nat, outcome: Outcome)
    requires AboutToFinish(w, t)
    ensures Core(FinishLead(w, t, outcome))
  {
    var v := FinishLead(w, t, outcome);
    FinishLeadBook(w, t, outcome);
    forall u | 0 <= u < |v.tasks| ensures TaskOk(v, u) { assert TaskOk(w, u); FinishLeadTask(w, t, outcome, u); }
    forall f | 0 <= f < |v.futures| ensures FutureOk(v, f) { FinishLeadFuture(w, t, outcome, f); }
  }

  // ---- taking the per-key lock --------------------------------------------------------------------

  ghost predicate AtTheLock(w: World, t: nat, l: nat) {
    Core(w) && t < |w.tasks| && w.tasks[t].pc == WaitingForLock(l) && TaskOk(w, t) && w.locks[l].owner == None
  }

  lemma FollowUnderLockKeeps(w: World, t: nat, l: nat)
    requires AtTheLock(w, t, l) && w.tasks[t].key in w.book.inflight
    ensures Core(UnderLock(w, t, l))
  {
    var v := UnderLock(w, t, l);
    assert Leads(w, w.futures[w.book.inflight[w.tasks[t].key]].leader, w.book.inflight[w.tasks[t].key]);
    forall u | 0 <= u < |v.tasks| ensures TaskOk(v, u) { assert TaskOk(w, u); }
    forall f | 0 <= f < |v.futures| ensures FutureOk(v, f) { assert FutureOk(w, f); }
  }

  lemma AtOnceKeeps(w: World, t: nat, l: nat, error: AuthState.AuthError)
    requires AtTheLock(w, t, l)
    ensures Core(AtOnce(w, t, l, error))
  {
    var v := AtOnce(w, t, l, error);
    forall u | 0 <= u < |v.tasks| ensures TaskOk(v, u) { assert TaskOk(w, u); }
    forall f | 0 <= f < |v.futures| ensures FutureOk(v, f) { if f < |w.futures| { assert FutureOk(w, f); } }
  }

  /** The last stretch of `UnderLock`: the task becomes the leader of a new future. */
  function Register(w: World, t: nat, l: nat, o: nat): World
    requires t < |w.tasks| && l < |w.locks|
  {
    var f := |w.futures|;
    var w2 := w.(book := w.book.(inflight := w.book.inflight[w.tasks[t].key := f]),
                 futures := w.futures + [FutureCell(w.tasks[t].key, t, Pending)]);
    SetPc(SetOwner(w2, l, Some(t)), t, Finding(Lead(l, f, o)))
  }

  lemma RegisterBook(w: World, t: nat, l: nat, o: nat)
    requires AtTheLock(w, t, l) && w.tasks[t].key !in w.book.inflight
    ensures BookOk(Register(w, t, l, o)) && LocksOk(Register(w, t, l, o))
  {
    var v := Register(w, t, l, o);
    forall k | k in v.book.inflight
      ensures v.book.inflight[k] < |v.futures| && v.futures[v.book.inflight[k]].key == k
      ensures Leads(v, v.futures[v.book.inflight[k]].leader, v.book.inflight[k])
    {
      if k != w.tasks[t].key { assert Leads(w, w.futures[w.book.inflight[k]].leader, w.book.inflight[k]); }
    }
  }

  lemma RegisterTask(w: World, t: nat, l: nat, o: nat, u: nat)
    requires t < |w.tasks| && w.tasks[t].pc == WaitingForLock(l) && TaskOk(w, t) && w.locks[l].owner == None
    requires o < |w.accounts| && w.accounts[o].account == w.tasks[t].request.account
    requires u < |w.tasks| && TaskOk(w, u)
    ensures TaskOk(Register(w, t, l, o), u)
  {
  }

  lemma RegisterKeeps(w: World, t: nat, l: nat, o: nat)
    requires AtTheLock(w, t, l) && w.tasks[t].key !in w.book.inflight
    requires o < |w.accounts| && w.accounts[o].account == w.tasks[t].request.account
    ensures Core(Register(w, t, l, o))
  {
    var v := Register(w, t, l, o);
    RegisterBook(w, t, l, o);
    forall u | 0 <= u < |v.tasks| ensures TaskOk(v, u) { assert TaskOk(w, u); RegisterTask(w, t, l, o, u); }
    forall f | 0 <= f < |v.futures| ensures FutureOk(v, f) { if f < |w.futures| { assert FutureOk(w, f); } }
  }

  lemma UnderLockKeeps(w: World, t: nat, l: nat)
    requires AtTheLock(w, t, l)
    ensures Core(UnderLock(w, t, l))
  {
    var a := w.tasks[t].request.account;
    if w.tasks[t].key in w.book.inflight {
      FollowUnderLockKeeps(w, t, l);
    } else if a !in w.book.objects {
      AtOnceKeeps(w, t, l, AuthState.AccountUnknown);
    } else {
      var o := w.book.objects[a];
      var state := w.accounts[o].view.state;
      if state == AuthState.Blocked {
        AtOnceKeeps(w, t, l, AuthState.DeviceBlocked);
      } else {
        var w1 := if state in {AuthState.Active, AuthState.Offline} then Update(w, o, AuthState.BeginSilentRefresh) else w;
        UpdateKeeps(w, o, AuthState.BeginSilentRefresh);
        assert TaskOk(w1, t);
        RegisterKeeps(w1, t, l, o);
        assert UnderLock(w, t, l) == Register(w1, t, l, o);
      }
    }
  }

  // ---- followers ------------------------------------------------------------------------------------

  /** What a follower may leave with: its cancellation, or what the future it awaited says. */
  ghost predicate Leaves(w: World, t: nat, pc: Pc) {
    && t < |w.tasks| && w.tasks[t].pc.Following? && TaskOk(w, t) && pc.Done?
    && if pc.via == None then pc.outcome == Cancelled
       else
         && pc.via.value == w.tasks[t].pc.shared
         && match w.futures[pc.via.value].state
            case Pending => false
            case Resolved(o) => pc.outcome == o
            case Killed => pc.outcome == Cancelled
  }

  lemma LeaveTask(w: World, t: nat, pc: Pc, u: nat)
    requires Leaves(w, t, pc) && u < |w.tasks| && TaskOk(w, u)
    ensures TaskOk(SetPc(Release(w, w.tasks[t].pc.held), t, pc), u)
  {
  }

  lemma LeaveTables(w: World, t: nat, pc: Pc)
    requires Leaves(w, t, pc) && BookOk(w) && LocksOk(w)
    ensures var v := SetPc(Release(w, w.tasks[t].pc.held), t, pc); BookOk(v) && LocksOk(v)
  {
  }

  /** A follower leaves, releasing the per-key lock if it holds it. */
  lemma LeaveKeeps(w: World, t: nat, pc: Pc)
    requires Core(w) && Leaves(w, t, pc)
    ensures Core(SetPc(Release(w, w.tasks[t].pc.held), t, pc))
  {
    var v := SetPc(Release(w, w.tasks[t].pc.held), t, pc);
    LeaveTables(w, t, pc);
    forall u | 0 <= u < |v.tasks| ensures TaskOk(v, u) { assert TaskOk(w, u); LeaveTask(w, t, pc, u); }
    forall f | 0 <= f < |v.futures| ensures FutureOk(v, f) { assert FutureOk(w, f); }
  }

  lemma KillKeeps(w: World, f: nat)
    requires Core(w) && f < |w.futures| && w.futures[f].state.Pending?
    ensures Core(w.(futures := w.futures[f := w.futures[f].(state := Killed)]))
  {
    var v := w.(futures := w.futures[f := w.futures[f].(state := Killed)]);
    forall u | 0 <= u < |v.tasks| ensures TaskOk(v, u) { assert TaskOk(w, u); }
    forall g | 0 <= g < |v.futures| ensures FutureOk(v, g) { assert FutureOk(w, g); }
  }

  // ---- arrivals --------------------------------------------------------------------------------------

  /** A new task that holds nothing yet. */
  lemma AddTaskKeeps(w: World, task: Task)
    requires Core(w)
    requires TaskOk(w.(tasks := w.tasks + [task]), |w.tasks|)
    requires match task.pc
             case Following(f, held) => held == None
             case WaitingForLock(_) => true
             case Done(_, via) => via == None
             case _ => !task.pc.job.Lead?
    ensures Core(w.(tasks := w.tasks + [task]))
  {
    var v := w.(tasks := w.tasks + [task]);
    assert forall u :: 0 <= u < |w.tasks| ==> v.tasks[u] == w.tasks[u];
    forall k | k in v.book.inflight
      ensures Leads(v, v.futures[v.book.inflight[k]].leader, v.book.inflight[k])
    {
      assert Leads(w, w.futures[w.book.inflight[k]].leader, w.book.inflight[k]);
    }
    forall u | 0 <= u < |v.tasks| ensures TaskOk(v, u) { if u < |w.tasks| { assert TaskOk(w, u); } }
    forall f | 0 <= f < |v.futures| ensures FutureOk(v, f) { assert FutureOk(w, f); }
  }

  lemma NewLockKeeps(w: World, key: Key)
    requires Core(w) && key !in w.book.locks
    ensures Core(w.(book := w.book.(locks := w.book.locks[key := |w.locks|]), locks := w.locks + [LockCell(key, None)]))
  {
    var v := w.(book := w.book.(locks := w.book.locks[key := |w.locks|]), locks := w.locks + [LockCell(key, None)]);
    forall k | k in v.book.inflight
      ensures Leads(v, v.futures[v.book.inflight[k]].leader, v.book.inflight[k])
    {
      assert Leads(w, w.futures[w.book.inflight[k]].leader, w.book.inflight[k]);
    }
    forall u | 0 <= u < |v.tasks| ensures TaskOk(v, u) { assert TaskOk(w, u); }
    forall f | 0 <= f < |v.futures| ensures FutureOk(v, f) { assert FutureOk(w, f); }
  }

  lemma LineUpKeeps(w: World, r: Request)
    requires Core(w) && r.Acquire?
    ensures Core(LineUp(w, r)) && TaskOk(LineUp(w, r), |w.tasks|)
  {
    var key := KeyFor(r);
    if key !in w.book.locks { NewLockKeeps(w, key); }
    var w1 := if key in w.book.locks then w
              else w.(book := w.book.(locks := w.book.locks[key := |w.locks|]), locks := w.locks + [LockCell(key, None)]);
    AddTaskKeeps(w1, Task(r, key, WaitingForLock(LockFor(w, key))));
    assert TaskOk(LineUp(w, r), |w.tasks|);
  }

  lemma BeginReauthKeeps(w: World, r: Request)
    requires Core(w) && r.Reauth?
    ensures Core(BeginReauth(w, r))
  {
    var key := KeyFor(r);
    if r.account !in w.book.objects {
      AddTaskKeeps(w, Task(r, key, Done(Raised(AuthState.AccountUnknown), None)));
    } else {
      var o := w.book.objects[r.account];
      var state := w.accounts[o].view.state;
      if state == AuthState.Blocked {
        AddTaskKeeps(w, Task(r, key, Done(Raised(AuthState.DeviceBlocked), None)));
      } else {
        UpdateKeeps(w, o, AuthState.BeginInteractive);
        AddTaskKeeps(Update(w, o, AuthState.BeginInteractive), Task(r, key, Finding(Renewal(o, state))));
      }
    }
  }

  lemma BeginKeeps(w: World, r: Request)
    requires Core(w)
    ensures Core(Begin(w, r))
  {
    var key := KeyFor(r);
    match r
    case SignOut(_) => AddTaskKeeps(w, Task(r, key, Finding(Removal)));
    case AddAccount(_, _, _) => AddTaskKeeps(w, Task(r, key, WaitingToWrite(Exchange)));
    case Reauth(_, _, _) => BeginReauthKeeps(w, r);
    case Acquire(a, scopes) =>
      if key in w.book.inflight {
        var f := w.book.inflight[key];
        assert Leads(w, w.futures[f].leader, f);
        AddTaskKeeps(w, Task(r, key, Following(f, None)));
      } else {
        LineUpKeeps(w, r);
        if LineUp(w, r).locks[LockFor(w, key)].owner == None { UnderLockKeeps(LineUp(w, r), |w.tasks|, LockFor(w, key)); }
      }
  }

  // ---- whole steps ----------------------------------------------------------------------------------

  lemma FailKeeps(w: World, t: nat, outcome: Outcome)
    requires Core(w) && Busy(w, t) && TaskOk(w, t)
    ensures Core(Fail(w, t, outcome))
  {
    if w.tasks[t].pc.job.Lead? { FinishLeadKeeps(w, t, outcome); } else { FinishBareKeeps(w, t, outcome); }
  }

  lemma RenewKeeps(w: World, t: nat, flow: Reauthentication.Flow)
    requires Core(w) && Busy(w, t) && w.tasks[t].pc.job.Renewal?
    ensures Core(Renew(w, t, flow))
  {
    assert TaskOk(w, t);
    var job := w.tasks[t].pc.job;
    var (view, ending) := Reauthentication.Conclude(w.accounts[job.subject].view, job.previous, flow);
    SetViewKeeps(w, job.subject, view);
    FinishBareKeeps(SetView(w, job.subject, view), t, EndingOutcome(ending));
  }

  lemma CancelKeeps(w: World, t: nat)
    requires Inv(w) && Enabled(w, Cancel(t))
    ensures Core(OnCancel(w, t))
  {
    assert TaskOk(w, t);
    var pc := w.tasks[t].pc;
    if pc.Following? {
      if w.futures[pc.shared].state.Pending? { KillKeeps(w, pc.shared); }
      else { LeaveKeeps(w, t, Done(Cancelled, None)); }
    } else if pc.WaitingForLock? {
      FinishBareKeeps(w, t, Cancelled);
    } else {
      LetGoKeeps(w, t);
      FailKeeps(LetGo(w, t), t, Cancelled);
    }
  }

  lemma GiveUpKeeps(w: World, t: nat)
    requires Core(w) && Busy(w, t) && w.tasks[t].pc.job.Lead?
    ensures Core(GiveUp(w, t))
  {
    TellKeeps(w, t, Some(NOT_IN_CACHE));
    FinishLeadKeeps(Tell(w, t, Some(NOT_IN_CACHE)), t, Raised(AuthState.Reauth));
  }

  lemma FoundKeeps(w: World, t: nat, present: bool)
    requires Inv(w) && Enabled(w, Found(t, present))
    ensures Core(AfterFind(w, t, present))
  {
    assert TaskOk(w, t);
    var job := w.tasks[t].pc.job;
    if present {
      if w.serializer == None { StartWriteKeeps(w, t); } else { MoveKeeps(w, t, WaitingToWrite(job)); }
    } else if job.Lead? {
      GiveUpKeeps(w, t);
    } else if job.Renewal? {
      RenewKeeps(w, t, Reauthentication.Abandoned);
    } else {
      DropKeeps(w, w.tasks[t].request.account);
      FinishBareKeeps(DropIn(w, w.tasks[t].request.account), t, Finished);
    }
  }

  lemma StartWriteKeeps(w: World, t: nat)
    requires Core(w) && Busy(w, t)
    ensures Core(StartWrite(w, t))
  {
    MoveKeeps(w, t, Writing(w.tasks[t].pc.job));
    BooksOnly(SetPc(w, t, Writing(w.tasks[t].pc.job)), StartWrite(w, t));
  }

  lemma LeadAnswerKeeps(w: World, t: nat, reply: Reply)
    requires Core(w) && Busy(w, t) && w.tasks[t].pc.job.Lead?
    ensures Core(AfterLeadWrite(w, t, reply))
  {
    TellKeeps(w, t, SilentCall(reply));
    FinishLeadKeeps(Tell(w, t, SilentCall(reply)), t, SilentOutcome(w.accounts[w.tasks[t].pc.job.subject].view, reply));
  }

  lemma OtherAnswerKeeps(w: World, t: nat, reply: Reply)
    requires Core(w) && Busy(w, t) && !w.tasks[t].pc.job.Lead?
    ensures Core(AfterOtherWrite(w, t, reply))
  {
    assert TaskOk(w, t);
    var r := w.tasks[t].request;
    if r.Reauth? {
      RenewKeeps(w, t, FlowOf(r, reply));
    } else if !reply.Success? {
      FinishBareKeeps(w, t, RefusedOutcome(r, reply));
    } else if r.SignOut? {
      DropKeeps(w, r.account);
      FinishBareKeeps(DropIn(w, r.account), t, Finished);
    } else {
      AdoptKeeps(w, r.account, r.hint);
      FinishBareKeeps(AdoptIn(w, r.account, r.hint), t, Finished);
    }
  }

  lemma ResumeKeeps(w: World, t: nat)
    requires Inv(w) && Enabled(w, Resume(t))
    ensures Core(AfterFollow(w, t))
  {
    assert TaskOk(w, t);
    var pc := w.tasks[t].pc;
    var state := w.futures[pc.shared].state;
    LeaveKeeps(w, t, Done(if state.Resolved? then state.outcome else Cancelled, Some(pc.shared)));
  }

  lemma TakeLockKeeps(w: World, t: nat)
    requires Inv(w) && Enabled(w, TakeLock(t))
    ensures Core(Next(w, TakeLock(t)))
  {
    assert TaskOk(w, t);
    UnderLockKeeps(w, t, w.tasks[t].pc.awaited);
  }

  lemma ThreadEndsKeeps(w: World, t: nat)
    requires Core(w)
    ensures Core(w.(threads := w.threads - {t}))
  {
    BooksOnly(w, w.(threads := w.threads - {t}));
  }

  lemma SwitchKeeps(w: World, a: string)
    requires Core(w)
    ensures Core(w.(book := Switch(w.book, a)))
  {
    BooksOnly(w, w.(book := Switch(w.book, a)));
  }

  lemma StartWorkKeeps(w: World, a: string)
    requires Core(w)
    ensures Core(w.(book := w.book.(groups := w.book.groups + {a})))
  {
    BooksOnly(w, w.(book := w.book.(groups := w.book.groups + {a})));
  }

  lemma StepKeepsCore(w: World, e: Event)
    requires Inv(w) && Enabled(w, e)
    ensures Core(Next(w, e))
  {
    match e
    case Arrive(r) => BeginKeeps(w, r);
    case TakeLock(t) => TakeLockKeeps(w, t);
    case Found(t, present) => FoundKeeps(w, t, present);
    case FindFails(t) => assert TaskOk(w, t); FailKeeps(w, t, Raised(AuthState.Unclassified));
    case TakeSerializer(t) => StartWriteKeeps(w, t);
    case Answer(t, reply) =>
      WrittenIsCore(w, t);
      if w.tasks[t].pc.job.Lead? { LeadAnswerKeeps(Written(w, t), t, reply); } else { OtherAnswerKeeps(Written(w, t), t, reply); }
    case Resume(t) => ResumeKeeps(w, t);
    case Cancel(t) => CancelKeeps(w, t);
    case ThreadEnds(t) => ThreadEndsKeeps(w, t);
    case SwitchTo(a) => SwitchKeeps(w, a);
    case StartWork(a) => StartWorkKeeps(w, a);
  }

  // ---- what a step leaves alone -------------------------------------------------------------------

  /** How many more uninterrupted stretches a task has before it at most. */
  function Work(pc: Pc): nat {
    match pc
    case WaitingForLock(_) => 4
    case Finding(_) => 3
    case WaitingToWrite(_) => 2
    case Writing(_) => 1
    case Following(_, _) => 1
    case Done(_, _) => 0
  }

  /** `v` is `w` with task `t` alone moved, nearer to its end and not into a write. A task starts to
      follow only from the per-key lock. */
  ghost predicate MovesOnly(w: World, v: World, t: nat) {
    && t < |w.tasks| && |v.tasks| == |w.tasks|
    && v.tasks == w.tasks[t := w.tasks[t].(pc := v.tasks[t].pc)]
    && !v.tasks[t].pc.Writing?
    && Work(v.tasks[t].pc) < Work(w.tasks[t].pc)
    && (v.tasks[t].pc.Following? ==> w.tasks[t].pc.WaitingForLock?)
  }

  /** Futures are created, and resolved by their leaders; none is killed. */
  ghost predicate FuturesGrow(w: World, v: World) {
    && |w.futures| <= |v.futures|
    && (forall f :: 0 <= f < |w.futures| ==>
          && v.futures[f].key == w.futures[f].key && v.futures[f].leader == w.futures[f].leader
          && (v.futures[f].state.Killed? <==> w.futures[f].state.Killed?))
    && (forall f :: |w.futures| <= f < |v.futures| ==> !v.futures[f].state.Killed?)
  }

  lemma UnderLockMoves(w: World, t: nat, l: nat)
    requires AtTheLock(w, t, l)
    ensures var v := UnderLock(w, t, l);
            MovesOnly(w, v, t) && v.serializer == w.serializer && v.threads == w.threads
            && v.book == w.book.(inflight := v.book.inflight) && FuturesGrow(w, v)
  {
  }

  lemma FinishLeadMoves(w: World, t: nat, outcome: Outcome)
    requires AboutToFinish(w, t)
    ensures var v := FinishLead(w, t, outcome);
            MovesOnly(w, v, t) && v.serializer == w.serializer && v.threads == w.threads
            && v.book == w.book.(inflight := v.book.inflight) && FuturesGrow(w, v)
  {
  }

  /** Cancelling this task would kill the future it awaits. */
  predicate Kills(w: World, t: nat) {
    t < |w.tasks| && w.tasks[t].pc.Following? && w.tasks[t].pc.shared < |w.futures|
    && w.futures[w.tasks[t].pc.shared].state.Pending?
  }

  /** How the tasks, the serializer and the executor threads change, event by event. */
  ghost predicate Moves(w: World, e: Event, v: World)
    requires Enabled(w, e)
  {
    match e
    case Arrive(r) =>
      && |v.tasks| == |w.tasks| + 1 && v.tasks[..|w.tasks|] == w.tasks
      && v.tasks[|w.tasks|].request == r && v.tasks[|w.tasks|].key == KeyFor(r) && !v.tasks[|w.tasks|].pc.Writing?
      && v.serializer == w.serializer && v.threads == w.threads && FuturesGrow(w, v)
    case TakeLock(t) => MovesOnly(w, v, t) && v.serializer == w.serializer && v.threads == w.threads && FuturesGrow(w, v)
    case Resume(t) => MovesOnly(w, v, t) && v.serializer == w.serializer && v.threads == w.threads && FuturesGrow(w, v)
    case FindFails(t) => MovesOnly(w, v, t) && v.serializer == w.serializer && v.threads == w.threads && FuturesGrow(w, v)
    case Found(t, present) =>
      if present && w.serializer == None then v == StartWrite(w, t)
      else MovesOnly(w, v, t) && v.serializer == w.serializer && v.threads == w.threads && FuturesGrow(w, v)
    case TakeSerializer(t) => v == StartWrite(w, t)
    case Answer(t, _) => MovesOnly(w, v, t) && v.serializer == None && v.threads == w.threads - {t} && FuturesGrow(w, v)
    case Cancel(t) =>
      if Kills(w, t) then
        var f := w.tasks[t].pc.shared;
        v == w.(futures := w.futures[f := w.futures[f].(state := Killed)])
      else
        && MovesOnly(w, v, t) && v.tasks[t].pc.Done? && v.threads == w.threads && FuturesGrow(w, v)
        && v.serializer == if w.tasks[t].pc.Writing? then None else w.serializer
    case ThreadEnds(t) => v == w.(threads := w.threads - {t})
    case SwitchTo(_) => v == w.(book := v.book)
    case StartWork(_) => v == w.(book := v.book)
  }

  lemma BeginMoves(w: World, r: Request)
    requires Core(w)
    ensures Moves(w, Arrive(r), Begin(w, r))
    ensures Begin(w, r).book == w.book.(inflight := Begin(w, r).book.inflight, locks := Begin(w, r).book.locks)
  {
    if r.Acquire? && KeyFor(r) !in w.book.inflight {
      var l := LockFor(w, KeyFor(r));
      LineUpKeeps(w, r);
      if LineUp(w, r).locks[l].owner == None { UnderLockMoves(LineUp(w, r), |w.tasks|, l); }
    }
  }

  lemma GiveUpMoves(w: World, t: nat)
    requires Core(w) && Busy(w, t) && w.tasks[t].pc.job.Lead?
    ensures var v := GiveUp(w, t);
            MovesOnly(w, v, t) && v.serializer == w.serializer && v.threads == w.threads
            && v.book == w.book.(inflight := v.book.inflight) && FuturesGrow(w, v)
  {
    TellKeeps(w, t, Some(NOT_IN_CACHE));
    FinishLeadMoves(Tell(w, t, Some(NOT_IN_CACHE)), t, Raised(AuthState.Reauth));
  }

  lemma FailMoves(w: World, t: nat, outcome: Outcome)
    requires Core(w) && Busy(w, t) && TaskOk(w, t)
    ensures var v := Fail(w, t, outcome);
            && MovesOnly(w, v, t) && v.tasks[t].pc.Done? && v.serializer == w.serializer && v.threads == w.threads
            && v.book == w.book.(inflight := v.book.inflight) && FuturesGrow(w, v)
  {
    if w.tasks[t].pc.job.Lead? { FinishLeadMoves(w, t, outcome); }
  }

  lemma RenewMoves(w: World, t: nat, flow: Reauthentication.Flow)
    requires Core(w) && Busy(w, t) && w.tasks[t].pc.job.Renewal?
    ensures var v := Renew(w, t, flow);
            && MovesOnly(w, v, t) && v.serializer == w.serializer && v.threads == w.threads
            && v.book == w.book && FuturesGrow(w, v)
  {
    assert TaskOk(w, t);
  }

  lemma RemovalMoves(w: World, t: nat, a: string)
    requires Core(w) && Consistent(w.book) && Busy(w, t)
    ensures var v := SetPc(DropIn(w, a), t, Done(Finished, None));
            MovesOnly(w, v, t) && v.serializer == w.serializer && v.threads == w.threads && FuturesGrow(w, v) && Consistent(v.book)
  {
    DropConsistent(w.book, a);
  }

  lemma AbsentMoves(w: World, t: nat)
    requires Inv(w) && Enabled(w, Found(t, false))
    ensures var v := AfterFind(w, t, false);
            MovesOnly(w, v, t) && v.serializer == w.serializer && v.threads == w.threads && FuturesGrow(w, v) && Consistent(v.book)
  {
    if w.tasks[t].pc.job.Lead? {
      GiveUpMoves(w, t);
    } else if w.tasks[t].pc.job.Renewal? {
      RenewMoves(w, t, Reauthentication.Abandoned);
    } else {
      RemovalMoves(w, t, w.tasks[t].request.account);
    }
  }

  lemma FoundMoves(w: World, t: nat, present: bool)
    requires Inv(w) && Enabled(w, Found(t, present))
    ensures Moves(w, Found(t, present), AfterFind(w, t, present)) && Consistent(AfterFind(w, t, present).book)
  {
    if !present { AbsentMoves(w, t); }
  }

  lemma LeadAnswerMoves(w: World, t: nat, reply: Reply)
    requires Core(w) && Busy(w, t) && w.tasks[t].pc.job.Lead?
    ensures var v := AfterLeadWrite(w, t, reply);
            MovesOnly(w, v, t) && v.serializer == w.serializer && v.threads == w.threads
            && v.book == w.book.(inflight := v.book.inflight) && FuturesGrow(w, v)
  {
    TellKeeps(w, t, SilentCall(reply));
    FinishLeadMoves(Tell(w, t, SilentCall(reply)), t, SilentOutcome(w.accounts[w.tasks[t].pc.job.subject].view, reply));
  }

  lemma OtherAnswerMoves(w: World, t: nat, reply: Reply)
    requires Core(w) && Busy(w, t) && !w.tasks[t].pc.job.Lead? && Consistent(w.book)
    ensures var v := AfterOtherWrite(w, t, reply);
            MovesOnly(w, v, t) && v.serializer == w.serializer && v.threads == w.threads && FuturesGrow(w, v)
            && Consistent(v.book)
  {
    assert TaskOk(w, t);
    var r := w.tasks[t].request;
    if r.Reauth? {
      RenewMoves(w, t, FlowOf(r, reply));
    } else if !reply.Success? {
    } else if r.SignOut? {
      RemovalMoves(w, t, r.account);
    } else {
      AdoptConsistent(w.book, r.account, |w.accounts|);
    }
  }

  lemma BusyCancelMoves(w: World, t: nat)
    requires Inv(w) && Busy(w, t)
    ensures var v := OnCancel(w, t);
            && MovesOnly(w, v, t) && v.tasks[t].pc.Done? && v.threads == w.threads && FuturesGrow(w, v)
            && v.serializer == (if w.tasks[t].pc.Writing? then None else w.serializer)
            && v.book == w.book.(inflight := v.book.inflight)
  {
    LetGoKeeps(w, t);
    FailMoves(LetGo(w, t), t, Cancelled);
  }

  lemma CancelMoves(w: World, t: nat)
    requires Inv(w) && Enabled(w, Cancel(t))
    ensures Moves(w, Cancel(t), OnCancel(w, t)) && OnCancel(w, t).book == w.book.(inflight := OnCancel(w, t).book.inflight)
  {
    if Busy(w, t) { BusyCancelMoves(w, t); } else { assert TaskOk(w, t); }
  }

  lemma AnswerMoves(w: World, t: nat, reply: Reply)
    requires Inv(w) && Enabled(w, Answer(t, reply))
    ensures var v := Next(w, Answer(t, reply)); Moves(w, Answer(t, reply), v) && Consistent(v.book)
  {
    WrittenIsCore(w, t);
    if w.tasks[t].pc.job.Lead? { LeadAnswerMoves(Written(w, t), t, reply); } else { OtherAnswerMoves(Written(w, t), t, reply); }
  }

  lemma LockMoves(w: World, e: Event)
    requires Inv(w) && Enabled(w, e) && (e.TakeLock? || e.Resume?)
    ensures Moves(w, e, Next(w, e)) && Consistent(Next(w, e).book)
  {
    assert TaskOk(w, e.task);
    if e.TakeLock? { UnderLockMoves(w, e.task, w.tasks[e.task].pc.awaited); }
  }

  lemma StepMoves(w: World, e: Event)
    requires Inv(w) && Enabled(w, e)
    ensures Moves(w, e, Next(w, e)) && Consistent(Next(w, e).book)
  {
    match e
    case Arrive(r) => BeginMoves(w, r);
    case TakeLock(_) => LockMoves(w, e);
    case Found(t, present) => FoundMoves(w, t, present);
    case FindFails(t) => assert TaskOk(w, t); FailMoves(w, t, Raised(AuthState.Unclassified));
    case TakeSerializer(t) =>
    case Answer(t, reply) => AnswerMoves(w, t, reply);
    case Resume(_) => LockMoves(w, e);
    case Cancel(t) => CancelMoves(w, t);
    case ThreadEnds(_) =>
    case SwitchTo(a) => SwitchConsistentIff(w.book, a);
    case StartWork(_) =>
  }

  lemma ArriveKeepsOwners(w: World, r: Request, v: World)
    requires SerializerOk(w) && KeysOk(w) && Moves(w, Arrive(r), v)
    ensures SerializerOk(v) && KeysOk(v)
  {
    assert forall u :: 0 <= u < |w.tasks| ==> v.tasks[u] == v.tasks[..|w.tasks|][u];
  }

  lemma MovesKeepOwners(w: World, e: Event, v: World)
    requires Enabled(w, e) && SerializerOk(w) && KeysOk(w) && Moves(w, e, v)
    ensures SerializerOk(v) && KeysOk(v)
  {
    if e.Arrive? { ArriveKeepsOwners(w, e.request, v); }
  }

  /** The invariant survives every step, whatever the event. */
  lemma StepKeeps(w: World, e: Event)
    requires Inv(w) && Enabled(w, e)
    ensures Inv(Next(w, e))
  {
    StepKeepsCore(w, e);
    StepMoves(w, e);
    MovesKeepOwners(w, e, Next(w, e));
  }
}
