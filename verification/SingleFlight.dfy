/** acquire_token_silently, sign_out, add_account and reauth_from_banner as interleaved steps. One step is one
    uninterrupted stretch of one task, from the return of an `await` to the next one. Locks, futures
    and account-state objects are heap cells named by their index; waiters of a lock are not
    ordered, so what is proved here holds of first-come-first-served waiting too. */
module SingleFlight {
  import opened Wrappers
  import opened Scopes
  import opened Accounts
  import AuthErrors
  import AuthState
  import Reauthentication

  type Tables = Accounts.Book<nat, nat, nat>

  /** What a call of acquire_token_silently (or of the other operations) ends with. */
  datatype Outcome =
    | Token(token: string)
    | Raised(error: AuthState.AuthError)
    | Cancelled
    | InvalidState
    | Finished
    | GivenUp

  datatype FutureState = Pending | Resolved(outcome: Outcome) | Killed

  /** `key` and `leader` record for which call the future was created. */
  datatype FutureCell = FutureCell(key: Key, leader: nat, state: FutureState)

  datatype LockCell = LockCell(key: Key, owner: Option<nat>)

  datatype AccountCell = AccountCell(account: string, view: AuthState.Account)

  datatype Request =
    | Acquire(account: string, scopes: seq<string>)
    | SignOut(account: string)
    | AddAccount(account: string, hint: Option<string>, consentUrl: Option<string>)
    | Reauth(account: string, hint: Option<string>, consentUrl: Option<string>)

  /** What a task in the middle of MSAL work holds. */
  datatype Job =
    | Lead(lock: nat, future: nat, subject: nat)
    | Removal
    | Exchange
    | Renewal(subject: nat, previous: AuthState.State)

  /** `Finding` waits for get_accounts, or for the browser of a re-authentication. */
  datatype Pc =
    | Following(shared: nat, held: Option<nat>)
    | WaitingForLock(awaited: nat)
    | Finding(job: Job)
    | WaitingToWrite(job: Job)
    | Writing(job: Job)
    | Done(outcome: Outcome, via: Option<nat>)

  /** `key` is the de-duplication key of an acquisition, computed when the call begins. */
  datatype Task = Task(request: Request, key: Key, pc: Pc)

  datatype World = World(book: Tables, accounts: seq<AccountCell>, locks: seq<LockCell>, futures: seq<FutureCell>,
                         serializer: Option<nat>, tasks: seq<Task>, threads: set<nat>)

  /** What the executor call of a `Writing` task comes back with. */
  datatype Reply =
    | Success(token: string)
    | Failure(result: AuthErrors.MsalResult)
    | NetworkDown
    | Crash

  datatype Event =
    | Arrive(request: Request)
    | TakeLock(task: nat)
    | Found(task: nat, present: bool)
    | FindFails(task: nat)
    | TakeSerializer(task: nat)
    | Answer(task: nat, reply: Reply)
    | Resume(task: nat)
    | Cancel(task: nat)
    | ThreadEnds(task: nat)
    | SwitchTo(account: string)
    | StartWork(account: string)

  const INIT := World(Accounts.Book(EMPTY_ORDER, map[], None, map[], map[], {}), [], [], [], None, [], {})

  function KeyFor(r: Request): Key {
    KeyOf(r.account, if r.Acquire? then r.scopes else [])
  }

  // ---- steps -----------------------------------------------------------------------------------

  function SetPc(w: World, t: nat, pc: Pc): World
    requires t < |w.tasks|
  {
    w.(tasks := w.tasks[t := w.tasks[t].(pc := pc)])
  }

  function SetOwner(w: World, l: nat, owner: Option<nat>): World
    requires l < |w.locks|
  {
    w.(locks := w.locks[l := w.locks[l].(owner := owner)])
  }

  function SetView(w: World, o: nat, view: AuthState.Account): World
    requires o < |w.accounts|
  {
    w.(accounts := w.accounts[o := w.accounts[o].(view := view)])
  }

  function Update(w: World, o: nat, call: AuthState.Call): World
    requires o < |w.accounts|
  {
    SetView(w, o, AuthState.Apply(w.accounts[o].view, call))
  }

  predicate Waits(w: World, t: nat, l: nat) {
    t < |w.tasks| && w.tasks[t].pc == WaitingForLock(l)
  }

  predicate Leads(w: World, t: nat, f: nat) {
    t < |w.tasks| && !w.tasks[t].pc.Following? && !w.tasks[t].pc.WaitingForLock? && !w.tasks[t].pc.Done?
    && w.tasks[t].pc.job.Lead? && w.tasks[t].pc.job.future == f
  }

  /** Some task older than `t` is already waiting for the lock. */
  predicate Queued(w: World, l: nat, t: nat) {
    exists u :: 0 <= u < t && Waits(w, u, l)
  }

  /** From holding the per-key lock to the first suspension: follow a registered future, fail at
      once on an unknown or blocked account, or register a future and look the account up. */
  function UnderLock(w: World, t: nat, l: nat): World
    requires t < |w.tasks| && w.tasks[t].request.Acquire? && l < |w.locks|
    requires forall a :: a in w.book.objects ==> w.book.objects[a] < |w.accounts|
  {
    var key := w.tasks[t].key;
    var f := |w.futures|;
    if key in w.book.inflight then
      SetPc(SetOwner(w, l, Some(t)), t, Following(w.book.inflight[key], Some(l)))
    else if w.tasks[t].request.account !in w.book.objects then
      AtOnce(w, t, l, AuthState.AccountUnknown)
    else
      var o := w.book.objects[w.tasks[t].request.account];
      var state := w.accounts[o].view.state;
      if state == AuthState.Blocked then
        AtOnce(w, t, l, AuthState.DeviceBlocked)
      else
        var w1 := if state in {AuthState.Active, AuthState.Offline} then Update(w, o, AuthState.BeginSilentRefresh) else w;
        var w2 := w1.(book := w.book.(inflight := w.book.inflight[key := f]), futures := w.futures + [FutureCell(key, t, Pending)]);
        SetPc(SetOwner(w2, l, Some(t)), t, Finding(Lead(l, f, o)))
  }

  /** Registering, failing and retiring in one stretch: only the resolved future is left over. */
  function AtOnce(w: World, t: nat, l: nat, error: AuthState.AuthError): World
    requires t < |w.tasks| && w.tasks[t].request.Acquire? && l < |w.locks|
  {
    var key := w.tasks[t].key;
    SetPc(SetOwner(w.(futures := w.futures + [FutureCell(key, t, Resolved(Raised(error)))]), l, None), t,
          Done(Raised(error), Some(|w.futures|)))
  }

  /** A leader publishes its outcome, retires its key and releases its lock. Publishing on a future
      that a follower's cancellation has killed raises instead, and the leader's own outcome is lost. */
  function FinishLead(w: World, t: nat, outcome: Outcome): World
    requires t < |w.tasks| && w.tasks[t].request.Acquire?
    requires w.tasks[t].pc.Finding? || w.tasks[t].pc.WaitingToWrite? || w.tasks[t].pc.Writing?
    requires w.tasks[t].pc.job.Lead? && w.tasks[t].pc.job.future < |w.futures| && w.tasks[t].pc.job.lock < |w.locks|
  {
    var job := w.tasks[t].pc.job;
    var cell := w.futures[job.future];
    var w1 := if cell.state.Pending? then w.(futures := w.futures[job.future := cell.(state := Resolved(outcome))]) else w;
    var w2 := w1.(book := w.book.(inflight := w.book.inflight - {w.tasks[t].key}));
    SetPc(SetOwner(w2, job.lock, None), t,
          Done(if cell.state.Pending? then outcome else InvalidState, Some(job.future)))
  }

  function LockFor(w: World, key: Key): nat {
    if key in w.book.locks then w.book.locks[key] else |w.locks|
  }

  /** A call that found no future to follow asks for its key's lock, created on first use. */
  function LineUp(w: World, r: Request): World {
    var key := KeyFor(r);
    var w1 := if key in w.book.locks then w
              else w.(book := w.book.(locks := w.book.locks[key := |w.locks|]), locks := w.locks + [LockCell(key, None)]);
    w1.(tasks := w.tasks + [Task(r, key, WaitingForLock(LockFor(w, key)))])
  }

  /** Refused at once for an unknown or blocked account; otherwise the browser is open. */
  function BeginReauth(w: World, r: Request): World
    requires r.account in w.book.objects ==> w.book.objects[r.account] < |w.accounts|
  {
    if r.account !in w.book.objects then
      w.(tasks := w.tasks + [Task(r, KeyFor(r), Done(Raised(AuthState.AccountUnknown), None))])
    else
      var o := w.book.objects[r.account];
      var state := w.accounts[o].view.state;
      if state == AuthState.Blocked then
        w.(tasks := w.tasks + [Task(r, KeyFor(r), Done(Raised(AuthState.DeviceBlocked), None))])
      else
        Update(w, o, AuthState.BeginInteractive).(tasks := w.tasks + [Task(r, KeyFor(r), Finding(Renewal(o, state)))])
  }

  function Begin(w: World, r: Request): World
    requires forall a :: a in w.book.objects ==> w.book.objects[a] < |w.accounts|
    requires forall k :: k in w.book.locks ==> w.book.locks[k] < |w.locks|
  {
    var t := |w.tasks|;
    match r
    case SignOut(a) => w.(tasks := w.tasks + [Task(r, KeyFor(r), Finding(Removal))])
    case AddAccount(_, _, _) => w.(tasks := w.tasks + [Task(r, KeyFor(r), WaitingToWrite(Exchange))])
    case Reauth(_, _, _) => BeginReauth(w, r)
    case Acquire(a, scopes) =>
      var key := KeyFor(r);
      if key in w.book.inflight then
        w.(tasks := w.tasks + [Task(r, key, Following(w.book.inflight[key], None))])
      else
        var l := LockFor(w, key);
        var w1 := LineUp(w, r);
        if w1.locks[l].owner == None && !Queued(w1, l, t) then UnderLock(w1, t, l) else w1
  }

  /** What a failed or successful silent acquisition means to its caller. */
  function SilentOutcome(a: AuthState.Account, reply: Reply): Outcome {
    match reply
    case Success(token) => Token(token)
    case Failure(result) =>
      var e := AuthErrors.Classify(result, None);
      Raised(AuthState.RaiseFor(AuthState.Apply(a, AuthState.ApplyError(e)).state, e))
    case NetworkDown => Raised(AuthState.OfflineNoToken)
    case Crash => Raised(AuthState.Unclassified)
  }

  /** The call the account-state object receives for a reply, if any. */
  function SilentCall(reply: Reply): Option<AuthState.Call> {
    match reply
    case Success(_) => Some(AuthState.MarkActive(None))
    case Failure(result) => Some(AuthState.ApplyError(AuthErrors.Classify(result, None)))
    case NetworkDown => Some(AuthState.MarkOffline)
    case Crash => None
  }

  /** The account object sign_out removes is told so; one that is already gone is not. */
  function DropIn(w: World, a: string): World
    requires a in w.book.objects ==> w.book.objects[a] < |w.accounts|
  {
    var w1 := if a in w.book.objects then Update(w, w.book.objects[a], AuthState.SignOut) else w;
    w1.(book := Drop(w.book, a))
  }

  function AdoptIn(w: World, a: string, hint: Option<string>): World {
    var view := AuthState.Apply(AuthState.Fresh(hint), AuthState.MarkActive(hint));
    w.(accounts := w.accounts + [AccountCell(a, view)], book := Adopt(w.book, a, |w.accounts|))
  }

  predicate Busy(w: World, t: nat) {
    t < |w.tasks| && (w.tasks[t].pc.Finding? || w.tasks[t].pc.WaitingToWrite? || w.tasks[t].pc.Writing?)
  }

  /** Which events can happen in a world; `SwitchTo` is only ever called with a known account. */
  predicate Enabled(w: World, e: Event) {
    match e
    case Arrive(_) => true
    case TakeLock(t) =>
      t < |w.tasks| && w.tasks[t].pc.WaitingForLock? && w.tasks[t].pc.awaited < |w.locks|
      && w.locks[w.tasks[t].pc.awaited].owner == None
    case Found(t, present) => Busy(w, t) && w.tasks[t].pc.Finding?
    case FindFails(t) => Busy(w, t) && w.tasks[t].pc.Finding?
    case TakeSerializer(t) => Busy(w, t) && w.tasks[t].pc.WaitingToWrite? && w.serializer == None
    case Answer(t, _) => Busy(w, t) && w.tasks[t].pc.Writing?
    case Resume(t) =>
      t < |w.tasks| && w.tasks[t].pc.Following? && w.tasks[t].pc.shared < |w.futures|
      && !w.futures[w.tasks[t].pc.shared].state.Pending?
    case Cancel(t) => t < |w.tasks| && !w.tasks[t].pc.Done?
    case ThreadEnds(t) => t in w.threads && (t < |w.tasks| ==> !w.tasks[t].pc.Writing?)
    case SwitchTo(a) => a in w.book.objects
    case StartWork(a) => true
  }

  // ---- the invariant --------------------------------------------------------------------------

  ghost predicate BookOk(w: World) {
    && (forall a :: a in w.book.objects ==> w.book.objects[a] < |w.accounts| && w.accounts[w.book.objects[a]].account == a)
    && (forall k :: k in w.book.locks ==> w.book.locks[k] < |w.locks| && w.locks[w.book.locks[k]].key == k)
    && (forall k :: k in w.book.inflight ==>
          && w.book.inflight[k] < |w.futures|
          && w.futures[w.book.inflight[k]].key == k
          && Leads(w, w.futures[w.book.inflight[k]].leader, w.book.inflight[k]))
  }

  ghost predicate HoldsLock(pc: Pc, l: nat) {
    (pc.Following? && pc.held == Some(l)) || ((pc.Finding? || pc.WaitingToWrite? || pc.Writing?) && pc.job.Lead? && pc.job.lock == l)
  }

  ghost predicate LocksOk(w: World) {
    forall l :: 0 <= l < |w.locks| && w.locks[l].owner.Some? ==>
      w.locks[l].owner.value < |w.tasks| && HoldsLock(w.tasks[w.locks[l].owner.value].pc, l)
  }

  /** The lock belongs to the request's key, and the task owns it. */
  ghost predicate Owns(w: World, t: nat, l: nat)
    requires t < |w.tasks| && w.tasks[t].request.Acquire?
  {
    l < |w.locks| && w.locks[l] == LockCell(w.tasks[t].key, Some(t))
  }

  ghost predicate FollowOk(w: World, t: nat, f: nat, held: Option<nat>)
    requires t < |w.tasks|
  {
    && w.tasks[t].request.Acquire? && f < |w.futures| && w.futures[f].key == w.tasks[t].key && w.futures[f].leader != t
    && (held.Some? ==> Owns(w, t, held.value))
  }

  ghost predicate LeadOk(w: World, t: nat, l: nat, f: nat, o: nat)
    requires t < |w.tasks|
  {
    && w.tasks[t].request.Acquire? && f < |w.futures| && w.futures[f].key == w.tasks[t].key && w.futures[f].leader == t
    && !w.futures[f].state.Resolved? && o < |w.accounts| && w.accounts[o].account == w.tasks[t].request.account && Owns(w, t, l)
  }

  /** A call that came back through future `f` has what the future's state dictates. */
  ghost predicate ReturnOk(w: World, t: nat, outcome: Outcome, f: nat)
    requires t < |w.tasks|
  {
    && w.tasks[t].request.Acquire? && f < |w.futures| && w.futures[f].key == w.tasks[t].key && !w.futures[f].state.Pending?
    && (w.futures[f].state.Resolved? ==> outcome == w.futures[f].state.outcome)
    && (w.futures[f].state.Killed? ==> outcome == if w.futures[f].leader == t then InvalidState else Cancelled)
  }

  /** What a task's position says about the future it leads, follows or came back from. */
  ghost predicate TaskOk(w: World, t: nat)
    requires t < |w.tasks|
  {
    var r, pc := w.tasks[t].request, w.tasks[t].pc;
    && (pc.Following? ==> FollowOk(w, t, pc.shared, pc.held))
    && (pc.WaitingForLock? ==> r.Acquire? && pc.awaited < |w.locks| && w.locks[pc.awaited].key == w.tasks[t].key)
    && (pc.Done? && pc.via.Some? ==> ReturnOk(w, t, pc.outcome, pc.via.value))
    && (r.Acquire? && pc.Done? && pc.via == None ==> pc.outcome == Cancelled)
    && (Busy(w, t) && pc.job.Lead? ==> LeadOk(w, t, pc.job.lock, pc.job.future, pc.job.subject))
    && (Busy(w, t) && pc.job.Removal? ==> r.SignOut?)
    && (Busy(w, t) && pc.job.Exchange? ==> r.AddAccount? && !pc.Finding?)
    && (Busy(w, t) && pc.job.Renewal? ==> r.Reauth? && pc.job.subject < |w.accounts| && w.accounts[pc.job.subject].account == r.account)
  }

  /** Every future has its leader: leading it still, or done with it. */
  ghost predicate FutureOk(w: World, f: nat)
    requires f < |w.futures|
  {
    var t := w.futures[f].leader;
    Leads(w, t, f) || (t < |w.tasks| && w.tasks[t].pc.Done? && w.tasks[t].pc.via == Some(f))
  }

  ghost predicate SerializerOk(w: World) {
    && (forall t :: 0 <= t < |w.tasks| ==> (w.tasks[t].pc.Writing? <==> w.serializer == Some(t)))
    && (w.serializer.Some? ==> w.serializer.value < |w.tasks| && w.serializer.value in w.threads)
    && (forall t :: t in w.threads ==> t < |w.tasks| && (w.tasks[t].pc.Writing? || w.tasks[t].pc.Done?))
  }

  ghost predicate Core(w: World) {
    && BookOk(w)
    && LocksOk(w)
    && (forall t :: 0 <= t < |w.tasks| ==> TaskOk(w, t))
    && (forall f :: 0 <= f < |w.futures| ==> FutureOk(w, f))
  }

  ghost predicate KeysOk(w: World) {
    forall t :: 0 <= t < |w.tasks| ==> w.tasks[t].key == KeyFor(w.tasks[t].request)
  }

  ghost predicate Inv(w: World) {
    Core(w) && SerializerOk(w) && KeysOk(w) && Consistent(w.book)
  }

  lemma WrittenIsCore(w: World, t: nat)
    requires Core(w)
    ensures Core(Written(w, t))
  {
    var v := Written(w, t);
    forall u | 0 <= u < |v.tasks| ensures TaskOk(v, u) { assert TaskOk(w, u); }
    forall f | 0 <= f < |v.futures| ensures FutureOk(v, f) { assert FutureOk(w, f); }
  }

  function Next(w: World, e: Event): World
    requires Inv(w) && Enabled(w, e)
  {
    match e
    case Arrive(r) => Begin(w, r)
    case TakeLock(t) => assert TaskOk(w, t); UnderLock(w, t, w.tasks[t].pc.awaited)
    case Found(t, present) => AfterFind(w, t, present)
    case FindFails(t) => assert TaskOk(w, t); Fail(w, t, Raised(AuthState.Unclassified))
    case TakeSerializer(t) => StartWrite(w, t)
    case Answer(t, reply) =>
      WrittenIsCore(w, t);
      if w.tasks[t].pc.job.Lead? then AfterLeadWrite(Written(w, t), t, reply) else AfterOtherWrite(Written(w, t), t, reply)
    case Resume(t) => AfterFollow(w, t)
    case Cancel(t) => OnCancel(w, t)
    case ThreadEnds(t) => w.(threads := w.threads - {t})
    case SwitchTo(a) => w.(book := Switch(w.book, a))
    case StartWork(a) => w.(book := w.book.(groups := w.book.groups + {a}))
  }

  function StartWrite(w: World, t: nat): World
    requires Busy(w, t)
  {
    SetPc(w, t, Writing(w.tasks[t].pc.job)).(serializer := Some(t), threads := w.threads + {t})
  }

  /** get_accounts returned, or the browser did. Without a matching MSAL account the silent path gives
      up, and sign_out goes straight to removing local state; without a redirect the user has
      abandoned the re-authentication. */
  function AfterFind(w: World, t: nat, present: bool): World
    requires Inv(w) && Busy(w, t) && w.tasks[t].pc.Finding?
  {
    if present then
      if w.serializer == None then StartWrite(w, t) else SetPc(w, t, WaitingToWrite(w.tasks[t].pc.job))
    else if w.tasks[t].pc.job.Lead? then
      GiveUp(w, t)
    else if w.tasks[t].pc.job.Renewal? then
      Renew(w, t, Reauthentication.Abandoned)
    else
      SetPc(DropIn(w, w.tasks[t].request.account), t, Done(Finished, None))
  }

  function EndingOutcome(ending: Reauthentication.Ending): Outcome {
    match ending
    case Completed => Finished
    case SignInCancelled => GivenUp
    case Raises(error) => Raised(error)
    case Propagates => Raised(AuthState.Unclassified)
  }

  /** The end of a re-authentication, on the account-state object it began with. */
  function Renew(w: World, t: nat, flow: Reauthentication.Flow): World
    requires Core(w) && Busy(w, t) && w.tasks[t].pc.job.Renewal?
  {
    assert TaskOk(w, t);
    var job := w.tasks[t].pc.job;
    var (view, ending) := Reauthentication.Conclude(w.accounts[job.subject].view, job.previous, flow);
    SetPc(SetView(w, job.subject, view), t, Done(EndingOutcome(ending), None))
  }

  /** What an answer to the code exchange means for the re-authentication that asked for it. */
  function FlowOf(r: Request, reply: Reply): Reauthentication.Flow
    requires r.Reauth?
  {
    match reply
    case Success(_) => Reauthentication.Granted(r.hint)
    case Failure(result) => Reauthentication.Denied(result, r.consentUrl)
    case _ => Reauthentication.Broken
  }

  /** A task ends with an exception of its own or its cancellation; a leader publishes it. */
  function Fail(w: World, t: nat, outcome: Outcome): World
    requires Busy(w, t) && TaskOk(w, t)
  {
    if w.tasks[t].pc.job.Lead? then FinishLead(w, t, outcome) else SetPc(w, t, Done(outcome, None))
  }

  const NOT_IN_CACHE := AuthState.ApplyError(AuthErrors.Classified(AuthErrors.Unknown, None, None, None, None))

  /** A leader tells the account-state object it began with. */
  function Tell(w: World, t: nat, call: Option<AuthState.Call>): World
    requires Busy(w, t) && w.tasks[t].pc.job.Lead? && w.tasks[t].pc.job.subject < |w.accounts|
  {
    if call.Some? then Update(w, w.tasks[t].pc.job.subject, call.value) else w
  }

  function GiveUp(w: World, t: nat): World
    requires Core(w) && Busy(w, t) && w.tasks[t].pc.job.Lead?
  {
    assert TaskOk(w, t);
    FinishLead(Tell(w, t, Some(NOT_IN_CACHE)), t, Raised(AuthState.Reauth))
  }

  /** The executor call came back: the serializer is released and the thread is gone. */
  function Written(w: World, t: nat): World {
    w.(serializer := None, threads := w.threads - {t})
  }

  /** A silent acquisition ends: the account object is told, then the outcome is published. */
  function AfterLeadWrite(w: World, t: nat, reply: Reply): World
    requires Core(w) && Busy(w, t) && w.tasks[t].pc.job.Lead?
  {
    assert TaskOk(w, t);
    FinishLead(Tell(w, t, SilentCall(reply)), t, SilentOutcome(w.accounts[w.tasks[t].pc.job.subject].view, reply))
  }

  /** A sign-in that is refused says why; anything else that goes wrong propagates. */
  function RefusedOutcome(r: Request, reply: Reply): Outcome {
    if r.AddAccount? && reply.Failure? then Raised(AuthState.RaiseForSignIn(AuthErrors.Classify(reply.result, r.consentUrl)))
    else Raised(AuthState.Unclassified)
  }

  /** A removal, a sign-in's code exchange or a re-authentication's ends. */
  function AfterOtherWrite(w: World, t: nat, reply: Reply): World
    requires Core(w) && Busy(w, t) && !w.tasks[t].pc.job.Lead?
  {
    assert TaskOk(w, t);
    var r := w.tasks[t].request;
    if r.Reauth? then Renew(w, t, FlowOf(r, reply))
    else if !reply.Success? then SetPc(w, t, Done(RefusedOutcome(r, reply), None))
    else if r.SignOut? then SetPc(DropIn(w, r.account), t, Done(Finished, None))
    else SetPc(AdoptIn(w, r.account, r.hint), t, Done(Finished, None))
  }

  function Release(w: World, held: Option<nat>): World
    requires held.Some? ==> held.value < |w.locks|
  {
    if held.Some? then SetOwner(w, held.value, None) else w
  }

  function AfterFollow(w: World, t: nat): World
    requires Inv(w) && t < |w.tasks| && w.tasks[t].pc.Following?
    requires w.tasks[t].pc.shared < |w.futures| && !w.futures[w.tasks[t].pc.shared].state.Pending?
  {
    var pc := w.tasks[t].pc;
    var state := w.futures[pc.shared].state;
    assert TaskOk(w, t);
    SetPc(Release(w, pc.held), t, Done(if state.Resolved? then state.outcome else Cancelled, Some(pc.shared)))
  }

  function LetGo(w: World, t: nat): World
    requires Busy(w, t)
  {
    if w.tasks[t].pc.Writing? then w.(serializer := None) else w
  }

  /** Cancelling a follower cancels the future it awaits, and every other follower's with it. A
      cancelled leader publishes its cancellation. Cancelling a task that holds the serializer
      releases it, but the executor thread goes on. */
  function OnCancel(w: World, t: nat): World
    requires Inv(w) && t < |w.tasks| && !w.tasks[t].pc.Done?
  {
    var pc := w.tasks[t].pc;
    assert TaskOk(w, t);
    if pc.Following? then
      if w.futures[pc.shared].state.Pending? then
        w.(futures := w.futures[pc.shared := w.futures[pc.shared].(state := Killed)])
      else
        SetPc(Release(w, pc.held), t, Done(Cancelled, None))
    else if pc.WaitingForLock? then
      SetPc(w, t, Done(Cancelled, None))
    else
      assert TaskOk(LetGo(w, t), t);
      Fail(LetGo(w, t), t, Cancelled)
  }
}
