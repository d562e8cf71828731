/** How far one operation of the account manager reaches: its own account's entries and state, and
    after a sign-out nothing of that account at all. */
module SingleFlightAccounts {
  import opened Wrappers
  import opened Scopes
  import opened Accounts
  import opened SingleFlight
  import opened SingleFlightInvariant
  import opened SingleFlightRuns
  import AuthErrors
  import AuthState
  import Reauthentication

  /** The account an event is about; a thread that merely ends is about none. */
  function ActsFor(w: World, e: Event): Option<string>
    requires Enabled(w, e)
  {
    match e
    case Arrive(r) => Some(r.account)
    case SwitchTo(a) => Some(a)
    case StartWork(a) => Some(a)
    case ThreadEnds(_) => None
    case _ => Some(w.tasks[e.task].request.account)
  }

  /** Account `x` keeps its table entries, and every state object made for it what it says. */
  ghost predicate Untouched(w: World, v: World, x: string) {
    && |w.accounts| <= |v.accounts|
    && (forall o :: 0 <= o < |w.accounts| && w.accounts[o].account == x ==> v.accounts[o] == w.accounts[o])
    && (x in v.book.objects <==> x in w.book.objects) && (x in w.book.objects ==> v.book.objects[x] == w.book.objects[x])
    && (forall k: Key :: k.account == x ==>
          (k in v.book.locks <==> k in w.book.locks) && (k in w.book.locks ==> v.book.locks[k] == w.book.locks[k]))
    && (forall k: Key :: k.account == x ==>
          (k in v.book.inflight <==> k in w.book.inflight) && (k in w.book.inflight ==> v.book.inflight[k] == w.book.inflight[k]))
  }

  lemma FinishSpares(w: World, t: nat, outcome: Outcome, x: string)
    requires AboutToFinish(w, t) && w.tasks[t].key.account != x
    ensures Untouched(w, FinishLead(w, t, outcome), x)
  {
  }

  lemma UnderLockSpares(w: World, t: nat, l: nat, x: string)
    requires AtTheLock(w, t, l) && w.tasks[t].key.account == w.tasks[t].request.account != x
    ensures Untouched(w, UnderLock(w, t, l), x)
  {
  }

  lemma LineUpSpares(w: World, r: Request, x: string)
    requires Core(w) && r.Acquire? && r.account != x
    ensures Untouched(w, LineUp(w, r), x)
  {
  }

  lemma UntouchedTwice(w: World, v: World, u: World, x: string)
    requires Untouched(w, v, x) && Untouched(v, u, x)
    ensures Untouched(w, u, x)
  {
  }

  lemma ArriveSpares(w: World, r: Request, x: string)
    requires Core(w) && r.account != x
    ensures Untouched(w, Begin(w, r), x)
  {
    if r.Acquire? && KeyFor(r) !in w.book.inflight {
      var v, l := LineUp(w, r), LockFor(w, KeyFor(r));
      LineUpKeeps(w, r);
      LineUpSpares(w, r, x);
      if v.locks[l].owner == None {
        UnderLockSpares(v, |w.tasks|, l, x);
        UntouchedTwice(w, v, UnderLock(v, |w.tasks|, l), x);
      }
    }
  }

  lemma DropSpares(w: World, a: string, x: string)
    requires Core(w) && a != x
    ensures Untouched(w, DropIn(w, a), x)
  {
    DropEffects(w.book, a);
  }

  lemma GiveUpSpares(w: World, t: nat, x: string)
    requires Core(w) && KeysOk(w) && Busy(w, t) && w.tasks[t].pc.job.Lead? && w.tasks[t].request.account != x
    ensures Untouched(w, GiveUp(w, t), x)
  {
    assert TaskOk(w, t);
    TellKeeps(w, t, Some(NOT_IN_CACHE));
    FinishSpares(Tell(w, t, Some(NOT_IN_CACHE)), t, Raised(AuthState.Reauth), x);
  }

  lemma LeadAnswerSpares(w: World, t: nat, reply: Reply, x: string)
    requires Core(w) && KeysOk(w) && Busy(w, t) && w.tasks[t].pc.job.Lead? && w.tasks[t].request.account != x
    ensures Untouched(w, AfterLeadWrite(w, t, reply), x)
  {
    assert TaskOk(w, t);
    TellKeeps(w, t, SilentCall(reply));
    FinishSpares(Tell(w, t, SilentCall(reply)), t, SilentOutcome(w.accounts[w.tasks[t].pc.job.subject].view, reply), x);
  }

  lemma RenewSpares(w: World, t: nat, flow: Reauthentication.Flow, x: string)
    requires Core(w) && Busy(w, t) && w.tasks[t].pc.job.Renewal? && w.tasks[t].request.account != x
    ensures Untouched(w, Renew(w, t, flow), x)
  {
    assert TaskOk(w, t);
  }

  lemma FailSpares(w: World, t: nat, outcome: Outcome, x: string)
    requires Core(w) && KeysOk(w) && Busy(w, t) && TaskOk(w, t) && w.tasks[t].request.account != x
    ensures Untouched(w, Fail(w, t, outcome), x)
  {
    if w.tasks[t].pc.job.Lead? { FinishSpares(w, t, outcome, x); }
  }

  lemma FoundSpares(w: World, t: nat, x: string)
    requires Inv(w) && Enabled(w, Found(t, false)) && w.tasks[t].request.account != x
    ensures Untouched(w, AfterFind(w, t, false), x)
  {
    if w.tasks[t].pc.job.Lead? {
      GiveUpSpares(w, t, x);
    } else if w.tasks[t].pc.job.Renewal? {
      RenewSpares(w, t, Reauthentication.Abandoned, x);
    } else {
      DropSpares(w, w.tasks[t].request.account, x);
    }
  }

  lemma OtherAnswerSpares(w: World, t: nat, reply: Reply, x: string)
    requires Core(w) && Busy(w, t) && !w.tasks[t].pc.job.Lead? && w.tasks[t].request.account != x
    ensures Untouched(w, AfterOtherWrite(w, t, reply), x)
  {
    assert TaskOk(w, t);
    var r := w.tasks[t].request;
    if r.Reauth? {
      RenewSpares(w, t, FlowOf(r, reply), x);
    } else if reply.Success? && r.SignOut? {
      DropSpares(w, r.account, x);
    }
  }

  lemma CancelSpares(w: World, t: nat, x: string)
    requires Inv(w) && Enabled(w, Cancel(t)) && w.tasks[t].request.account != x
    ensures Untouched(w, OnCancel(w, t), x)
  {
    if Busy(w, t) {
      LetGoKeeps(w, t);
      FailSpares(LetGo(w, t), t, Cancelled, x);
    } else {
      assert TaskOk(w, t);
    }
  }

  lemma StepSpares(w: World, e: Event, x: string)
    requires Inv(w) && Enabled(w, e) && ActsFor(w, e) != Some(x)
    ensures Untouched(w, Next(w, e), x)
  {
    match e
    case Arrive(r) => ArriveSpares(w, r, x);
    case TakeLock(t) => assert TaskOk(w, t); UnderLockSpares(w, t, w.tasks[t].pc.awaited, x);
    case Found(t, present) => if !present { FoundSpares(w, t, x); }
    case FindFails(t) => assert TaskOk(w, t); FailSpares(w, t, Raised(AuthState.Unclassified), x);
    case Answer(t, reply) =>
      WrittenIsCore(w, t);
      if w.tasks[t].pc.job.Lead? { LeadAnswerSpares(Written(w, t), t, reply, x); } else { OtherAnswerSpares(Written(w, t), t, reply, x); }
    case Cancel(t) => CancelSpares(w, t, x);
    case _ =>
  }

  /** Isolation over a run: whatever happens between two moments that is not about account `x`,
      account `x` keeps its entry, its state, its locks and its calls in flight. */
  lemma {:induction false} AccountsAreIsolated(ws: seq<World>, es: seq<Event>, i: nat, j: nat, x: string)
    requires IsRun(ws, es) && i <= j < |ws|
    requires forall k :: i <= k < j ==> Enabled(ws[k], es[k]) && ActsFor(ws[k], es[k]) != Some(x)
    ensures Untouched(ws[i], ws[j], x)
    decreases j - i
  {
    if i < j {
      assert Steps(ws[i], es[i], ws[i + 1]);
      StepSpares(ws[i], es[i], x);
      AccountsAreIsolated(ws, es, i + 1, j, x);
    }
  }

  /** `v` is `w` after a sign-out of `a` has run to its end. */
  ghost predicate SignedOut(w: World, v: World, a: string) {
    && a !in v.book.objects && a !in v.book.order && a !in v.book.groups && v.book.active != Some(a)
    && (forall k :: k in v.book.locks || k in v.book.inflight ==> k.account != a)
    && (a in w.book.objects ==>
          w.book.objects[a] < |v.accounts| && v.accounts[w.book.objects[a]].view == AuthState.Fresh(None))
  }

  lemma DropSignsOut(w: World, t: nat, a: string, pc: Pc)
    requires Core(w) && t < |w.tasks|
    ensures SignedOut(w, SetPc(DropIn(w, a), t, pc), a)
  {
    DropEffects(w.book, a);
  }

  lemma FinishedSignOut(w: World, e: Event, t: nat, a: string)
    requires Inv(w) && Enabled(w, e) && t < |w.tasks| <= |Next(w, e).tasks| && w.tasks[t].request == Request.SignOut(a)
    requires !e.Arrive? && !e.ThreadEnds? && !e.SwitchTo? && !e.StartWork? && e.task == t
    requires Next(w, e).tasks[t].pc.Done? && Next(w, e).tasks[t].pc.outcome == Finished
    ensures SignedOut(w, Next(w, e), a)
  {
    assert TaskOk(w, t);
    if e.Found? {
      DropSignsOut(w, t, a, Done(Finished, None));
    } else if e.Answer? {
      WrittenIsCore(w, t);
      DropSignsOut(Written(w, t), t, a, Done(Finished, None));
    }
  }

  /** When a sign-out returns successfully, its account is in no table any more, the state object it
      had says signed out, and every other account is untouched, other tasks being wherever they
      may be. */
  lemma SignOutLeavesNothing(ws: seq<World>, es: seq<Event>, i: nat, t: nat, a: string, x: string)
    requires IsRun(ws, es) && i < |es|
    requires t < |ws[i].tasks| <= |ws[i + 1].tasks| && ws[i].tasks[t].request == Request.SignOut(a)
    requires !ws[i].tasks[t].pc.Done? && ws[i + 1].tasks[t].pc.Done? && ws[i + 1].tasks[t].pc.outcome == Finished
    ensures SignedOut(ws[i], ws[i + 1], a)
    ensures x != a ==> Untouched(ws[i], ws[i + 1], x)
  {
    RunStep(ws, es, i);
    MoverIs(ws[i], es[i], ws[i + 1], t);
    assert Steps(ws[i], es[i], ws[i + 1]);
    FinishedSignOut(ws[i], es[i], t, a);
    if x != a { StepSpares(ws[i], es[i], x); }
  }

  /** All along every run there is an active account exactly when there are accounts, and it is one
      of them. */
  lemma ActiveAccountIsAMember(ws: seq<World>, es: seq<Event>, i: nat)
    requires IsRun(ws, es) && i < |ws|
    ensures var b := ws[i].book;
            (b.active == None <==> b.objects == map[]) && (b.active.Some? ==> b.active.value in b.objects)
  {
    RunInvariant(ws, es, i);
    var b := ws[i].book;
    if b.order == [] {
      assert forall a :: a !in b.objects;
    } else {
      assert b.order[0] in b.objects;
    }
  }

  lemma MoverIs(w: World, e: Event, v: World, t: nat)
    requires Inv(w) && Enabled(w, e) && Moves(w, e, v) && t < |w.tasks| <= |v.tasks|
    requires !w.tasks[t].pc.Done? && v.tasks[t].pc.Done?
    ensures !e.Arrive? && !e.ThreadEnds? && !e.SwitchTo? && !e.StartWork? && e.task == t
  {
  }

  /** The account still has its state object, and the object says what it said. */
  ghost predicate SameAccount(w: World, v: World, a: string) {
    && a in w.book.objects && a in v.book.objects && v.book.objects[a] == w.book.objects[a]
    && w.book.objects[a] < |w.accounts| && w.book.objects[a] < |v.accounts|
    && v.accounts[w.book.objects[a]] == w.accounts[w.book.objects[a]]
  }

  ghost predicate Stale(w: World, t: nat) {
    && Core(w) && Leading(w, t) && TaskOk(w, t)
    && w.tasks[t].request.account in w.book.objects && w.book.objects[w.tasks[t].request.account] != w.tasks[t].pc.job.subject
  }

  lemma StaleAnswer(w: World, t: nat, reply: Reply)
    requires Stale(w, t) && Inv(w) && Enabled(w, Answer(t, reply))
    ensures SameAccount(w, Next(w, Answer(t, reply)), w.tasks[t].request.account)
  {
  }

  lemma StaleFound(w: World, t: nat, present: bool)
    requires Stale(w, t) && Inv(w) && Enabled(w, Found(t, present))
    ensures SameAccount(w, Next(w, Found(t, present)), w.tasks[t].request.account)
  {
  }

  /** An acquisition that began before its account was signed out and added again still ends by
      updating the state object it began with: the new account's state is not its business. */
  lemma StaleLeaderSparesNewAccount(ws: seq<World>, es: seq<Event>, i: nat, t: nat)
    requires IsRun(ws, es) && i < |es| && Leading(ws[i], t)
    requires es[i] in {Cancel(t), Found(t, true), Found(t, false)} || (es[i].Answer? && es[i].task == t)
    requires var a := ws[i].tasks[t].request.account;
             a in ws[i].book.objects && ws[i].book.objects[a] != ws[i].tasks[t].pc.job.subject
    ensures SameAccount(ws[i], ws[i + 1], ws[i].tasks[t].request.account)
  {
    assert Steps(ws[i], es[i], ws[i + 1]);
    assert TaskOk(ws[i], t);
    if es[i].Answer? {
      StaleAnswer(ws[i], t, es[i].reply);
    } else if es[i].Found? {
      StaleFound(ws[i], t, es[i].present);
    }
  }
}
