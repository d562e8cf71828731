/** What the redirect listener guarantees over every run: any interleaving of connections, waiters,
    overlapping starts, re-armings and cancellations. */
module LoopbackRuns {
  import opened Loopback
  import opened Measures
  import opened Wrappers

  /** A step that changes one handler, and at most the lock it holds, keeps the invariant. */
  lemma HandlerMoves(w: World, h: nat, x: Handler, locks: seq<Option<nat>>)
    requires Inv(w) && h < |w.handlers| && |locks| == |w.locks|
    requires forall l :: 0 <= l < |locks| ==> locks[l] == w.locks[l] || w.locks[l] in {None, Some(h)}
    requires var v := w.(locks := locks, handlers := w.handlers[h := x]);
             && HandlerOk(v, h)
             && (Wrote(v, h, Accepted) <==> Wrote(w, h, Accepted))
             && forall l :: 0 <= l < |locks| ==> (locks[l] != w.locks[l] || locks[l] == Some(h) ==> LockOk(v, l))
    ensures Inv(w.(locks := locks, handlers := w.handlers[h := x]))
  {
    var v := w.(locks := locks, handlers := w.handlers[h := x]);
    assert forall g: nat :: Wrote(v, g, Accepted) <==> Wrote(w, g, Accepted);
    forall g | 0 <= g < |v.handlers| ensures HandlerOk(v, g) { assert HandlerOk(w, g); }
    forall k | 0 <= k < |v.waiters| ensures WaiterOk(v, k) { assert WaiterOk(w, k); }
    forall l | 0 <= l < |v.locks| ensures LockOk(v, l) { assert LockOk(w, l); }
  }

  /** So does one that leaves the handlers, the locks and the result alone, or only adds to the first
      two. */
  lemma ListenerMoves(w: World, v: World)
    requires Inv(w) && SlotOk(v.listener) && |v.locks| == |v.listener.events| && (v.starting > 0 ==> v.locks != [])
    requires v.listener.result == w.listener.result
    requires v.handlers == w.handlers || (w.locks != [] && v.handlers == w.handlers + [Handler(map[], Reading)])
    requires v.locks == w.locks || v.locks == w.locks + [None]
    requires forall k :: 0 <= k < |v.waiters| ==> WaiterOk(v, k)
    ensures Inv(v)
  {
    assert forall g: nat :: Wrote(v, g, Accepted) <==> Wrote(w, g, Accepted);
    forall g | 0 <= g < |v.handlers| ensures HandlerOk(v, g) { if g < |w.handlers| { assert HandlerOk(w, g); } }
    forall l | 0 <= l < |v.locks| ensures LockOk(v, l) { if l < |w.locks| { assert LockOk(w, l); } }
  }

  lemma ClosingKeeps(w: World, h: nat)
    requires Inv(w) && IsOpen(w, h)
    ensures HandlerOk(w, h) && Inv(CloseHandler(w, h))
  {
    assert HandlerOk(w, h);
    var v := CloseHandler(w, h);
    forall l | 0 <= l < |w.locks| ensures v.locks[l] != Some(h) { assert LockOk(w, l); }
    HandlerMoves(w, h, v.handlers[h], v.locks);
  }

  lemma ReadingKeeps(w: World, h: nat, q: Option<Query>)
    requires Inv(w) && Enabled(w, Read(h, q))
    ensures Inv(Next(w, Read(h, q)))
  {
    assert HandlerOk(w, h);
    var v := Next(w, Read(h, q));
    forall l | 0 <= l < |w.locks| ensures w.locks[l] != Some(h) { assert LockOk(w, l); }
    HandlerMoves(w, h, v.handlers[h], w.locks);
  }

  lemma DecidingKeeps(w: World, h: nat)
    requires Inv(w) && Enabled(w, TakeLock(h))
    ensures Inv(DecideAndRespond(w, h))
  {
    var v := DecideAndRespond(w, h);
    assert HandlerOk(w, h);
    forall l | 0 <= l < |w.locks| ensures w.locks[l] != Some(h) { assert LockOk(w, l); }
    if Verdict(w.listener, w.handlers[h].query) == Accepted {
      forall g: nat | g != h ensures !Wrote(w, g, Accepted) && !Wrote(v, g, Accepted) {
        if g < |w.handlers| { assert HandlerOk(w, g); }
      }
      assert Wrote(v, h, Accepted);
      forall g | 0 <= g < |v.handlers| ensures HandlerOk(v, g) { assert HandlerOk(w, g); }
      forall k | 0 <= k < |v.waiters| ensures WaiterOk(v, k) { assert WaiterOk(w, k); }
      forall l | 0 <= l < |v.locks| ensures LockOk(v, l) { assert LockOk(w, l); }
    } else {
      HandlerMoves(w, h, v.handlers[h], v.locks);
    }
  }

  lemma StepKeeps(w: World, e: Event)
    requires Inv(w) && Enabled(w, e)
    ensures Inv(Next(w, e))
  {
    var v := Next(w, e);
    match e
    case Read(h, q) => ReadingKeeps(w, h, q);
    case TakeLock(h) => DecidingKeeps(w, h);
    case Finish(h) => ClosingKeeps(w, h);
    case CancelHandler(h) => ClosingKeeps(w, h);
    case _ =>
      forall k | 0 <= k < |v.waiters| ensures WaiterOk(v, k) { if k < |w.waiters| { assert WaiterOk(w, k); } }
      ListenerMoves(w, v);
  }

  // ---- what holds over every run ---------------------------------------------------------------------

  ghost predicate Steps(w: World, e: Event, v: World) {
    Inv(w) && Enabled(w, e) && v == Next(w, e)
  }

  /** `ws` are the worlds between the events `es`, starting from an unused listener. */
  ghost predicate IsRun(ws: seq<World>, es: seq<Event>) {
    && |ws| == |es| + 1
    && ws[0] == INIT
    && forall i {:trigger Steps(ws[i], es[i], ws[i + 1])} :: 0 <= i < |es| ==> Steps(ws[i], es[i], ws[i + 1])
  }

  lemma RunStep(ws: seq<World>, es: seq<Event>, i: nat)
    requires IsRun(ws, es) && i < |es|
    ensures Inv(ws[i]) && Enabled(ws[i], es[i]) && ws[i + 1] == Next(ws[i], es[i]) && Inv(ws[i + 1])
  {
    assert Steps(ws[i], es[i], ws[i + 1]);
    StepKeeps(ws[i], es[i]);
  }

  /** The invariant, which `Next` asks for, holds all along every run and never stops one. */
  lemma RunInvariant(ws: seq<World>, es: seq<Event>, i: nat)
    requires IsRun(ws, es) && i < |ws|
    ensures Inv(ws[i])
  {
    if i > 0 { RunStep(ws, es, i - 1); }
  }

  /** However many connections race, at most one is answered with the acceptance; one is exactly when
      the event is set, and the stored result is what that connection sent. */
  lemma SingleAccept(ws: seq<World>, es: seq<Event>, i: nat, h: nat, g: nat)
    requires IsRun(ws, es) && i < |ws|
    ensures Wrote(ws[i], h, Accepted) && Wrote(ws[i], g, Accepted) ==> h == g
    ensures Wrote(ws[i], h, Accepted) ==> ws[i].listener.result == Some(ws[i].handlers[h].query)
    ensures IsSet(ws[i].listener) <==> ws[i].listener.result.Some?
    ensures IsSet(ws[i].listener) <==> exists k: nat :: Wrote(ws[i], k, Accepted)
  {
    RunInvariant(ws, es, i);
    forall k: nat | Wrote(ws[i], k, Accepted) ensures ws[i].listener.result == Some(ws[i].handlers[k].query) {
      assert HandlerOk(ws[i], k);
    }
  }

  /** The slot is written once: an accepted result is never replaced, by no later connection, no
      re-arming and no further call of start, and its event stays set. */
  lemma {:induction false} ResultIsFinal(ws: seq<World>, es: seq<Event>, i: nat, j: nat)
    requires IsRun(ws, es) && i <= j < |ws| && ws[i].listener.result.Some?
    ensures ws[j].listener.result == ws[i].listener.result && IsSet(ws[j].listener)
    decreases j - i
  {
    RunInvariant(ws, es, i);
    if i < j {
      RunStep(ws, es, i);
      ResultIsFinal(ws, es, i + 1, j);
    }
  }

  /** Every decision, wherever it falls in the run: a redirect is accepted exactly when nothing was
      accepted before and its `state` is the one expected at that moment; otherwise it is turned away,
      as used if something was accepted and as invalid if not, and the listener is left as it was. */
  lemma DecisionIff(ws: seq<World>, es: seq<Event>, i: nat)
    requires IsRun(ws, es) && i < |es| && es[i].TakeLock?
    ensures es[i].handler < |ws[i].handlers|
    ensures var h := es[i].handler; var q := ws[i].handlers[h].query;
            && (Wrote(ws[i + 1], h, Accepted) <==> ws[i].listener.result == None && "state" in q && ws[i].listener.expected == Some(q["state"]))
            && (Wrote(ws[i + 1], h, AlreadyUsed) <==> ws[i].listener.result.Some?)
            && (Wrote(ws[i + 1], h, Accepted) || Wrote(ws[i + 1], h, AlreadyUsed) || Wrote(ws[i + 1], h, Invalid))
            && (!Wrote(ws[i + 1], h, Accepted) ==> ws[i + 1].listener == ws[i].listener)
  {
    RunStep(ws, es, i);
  }

  /** Only a matching redirect fills the slot: whatever step stores a result is the decision on a
      redirect whose `state` equals the expected one at that moment. */
  lemma OnlyMatchingCommits(ws: seq<World>, es: seq<Event>, i: nat)
    requires IsRun(ws, es) && i < |es| && ws[i].listener.result != ws[i + 1].listener.result
    ensures es[i].TakeLock? && es[i].handler < |ws[i].handlers| && ws[i].listener.result == None
    ensures var q := ws[i].handlers[es[i].handler].query;
            ws[i + 1].listener.result == Some(q) && "state" in q && ws[i].listener.expected == Some(q["state"])
  {
    RunStep(ws, es, i);
  }

  /** Malformed, rejected and abandoned connections leave no trace on the listener. */
  lemma OthersLeaveNoTrace(ws: seq<World>, es: seq<Event>, i: nat)
    requires IsRun(ws, es) && i < |es|
    requires es[i].Connect? || es[i].Read? || es[i].Finish? || es[i].CancelHandler?
    ensures ws[i + 1].listener == ws[i].listener && ws[i + 1].waiters == ws[i].waiters
  {
    RunStep(ws, es, i);
  }

  /** Every call of wait_for_redirect that returns at all returns the one result, whenever each was
      made and whatever state each of them armed. */
  lemma WaitersAgree(ws: seq<World>, es: seq<Event>, i: nat, j: nat, k: nat, m: nat)
    requires IsRun(ws, es) && i <= j < |ws| && k < |ws[i].waiters| && m < |ws[j].waiters|
    requires ws[i].waiters[k].Answered? && ws[i].waiters[k].answer.Redirect?
    requires ws[j].waiters[m].Answered? && ws[j].waiters[m].answer.Redirect?
    ensures ws[i].waiters[k].answer == ws[j].waiters[m].answer
    ensures exists h: nat :: Wrote(ws[i], h, Accepted) && ws[i].handlers[h].query == ws[i].waiters[k].answer.query
  {
    RunInvariant(ws, es, i);
    RunInvariant(ws, es, j);
    assert WaiterOk(ws[i], k) && WaiterOk(ws[j], m);
    ResultIsFinal(ws, es, i, j);
    var h: nat :| Wrote(ws[i], h, Accepted);
    assert HandlerOk(ws[i], h);
  }

  /** A further call after the acceptance is said to return the same result at once. It does exactly
      if the deadline has not passed yet; afterwards it raises although the result is there. */
  lemma SecondWaitIff(ws: seq<World>, es: seq<Event>, i: nat)
    requires IsRun(ws, es) && i < |es| && es[i].Wait? && ws[i].listener.result.Some?
    ensures |ws[i + 1].waiters| == |ws[i].waiters| + 1
    ensures var s := ws[i].listener; var answer := ws[i + 1].waiters[|ws[i].waiters|];
            && (answer == Answered(Redirect(s.result.value)) <==> !s.expired)
            && (answer == Answered(DeadlinePassed) <==> s.expired)
            && ws[i + 1].listener.result == s.result
  {
    RunStep(ws, es, i);
  }

  /** How every wait ends, over every run. A new one is refused before start; otherwise it arms its state, and
      raises if the deadline has passed, returns the redirect if one is stored, or goes on. One that goes on
      ends with the stored redirect, or with the deadline, or with its cancellation. */
  lemma WaitEndsWith(ws: seq<World>, es: seq<Event>, i: nat, k: nat)
    requires IsRun(ws, es) && i < |es|
    ensures var w, v := ws[i], ws[i + 1];
            match es[i]
            case Wait(state) =>
              |v.waiters| == |w.waiters| + 1
              && v.listener == (if w.listener.server then w.listener.(expected := Some(state)) else w.listener)
              && (var x := v.waiters[|w.waiters|];
                  && (x == Answered(NotStarted) <==> !w.listener.server)
                  && (x == Answered(DeadlinePassed) <==> w.listener.server && w.listener.expired)
                  && (w.listener.result.Some? && !w.listener.expired ==> x == Answered(Redirect(w.listener.result.value)))
                  && (x.Waiting? <==> w.listener.server && !w.listener.expired && w.listener.result == None))
            case WakeUp(u) => IsWaiting(w, u) && w.listener.result.Some? && v == w.(waiters := w.waiters[u := Answered(Redirect(w.listener.result.value))])
            case GiveUp(u) => IsWaiting(w, u) && w.listener.expired && v == w.(waiters := w.waiters[u := Answered(DeadlinePassed)])
            case CancelWait(u) => IsWaiting(w, u) && v == w.(waiters := w.waiters[u := Answered(WaitCancelled)])
            case _ => v.waiters == w.waiters
  {
    RunStep(ws, es, i);
    if es[i].WakeUp? { assert WaiterOk(ws[i], es[i].waiter); }
  }

  /** Only a start whose bind succeeds makes the listener a server with a deadline of its own; every start makes
      a new event first; only arming and waiting change the expected state. */
  lemma ListenerSteps(ws: seq<World>, es: seq<Event>, i: nat)
    requires IsRun(ws, es) && i < |es|
    ensures var s, t := ws[i].listener, ws[i + 1].listener;
            match es[i]
            case BeginStart => t == s.(events := s.events + [false])
            case FinishStart => t == s.(server := true, expired := false)
            case Arm(state) => t == s.(expected := Some(state))
            case DeadlinePasses => t == s.(expired := true)
            case Wait(_) => t.server == s.server && t.events == s.events && t.result == s.result && t.expired == s.expired
            case TakeLock(_) => t.server == s.server && t.expected == s.expected && t.expired == s.expired
            case _ => t == s
  {
    RunStep(ws, es, i);
  }

  /** What a connection is answered: a malformed request is invalid at once, a request that was read waits for
      the lock, and what was decided is what the closed connection got. */
  lemma ConnectionSteps(ws: seq<World>, es: seq<Event>, i: nat)
    requires IsRun(ws, es) && i < |es|
    ensures var w, v := ws[i], ws[i + 1];
            match es[i]
            case Connect => v.handlers == w.handlers + [Handler(map[], Reading)]
            case Read(h, q) =>
              h < |w.handlers| == |v.handlers|
              && (q == None ==> v.handlers[h].pc == Responding(Invalid, None))
              && (q.Some? ==> v.handlers[h].query == q.value && v.handlers[h].pc.WaitingForLock?)
            case Finish(h) =>
              h < |w.handlers| == |v.handlers| && w.handlers[h].pc.Responding? && v.handlers[h].pc == Closed(Some(w.handlers[h].pc.sent))
            case _ => true
  {
    RunStep(ws, es, i);
  }

  const REDIRECT: Query := map["state" := "s"]

  lemma Go(w: World, e: Event) returns (v: World)
    requires Inv(w) && Enabled(w, e)
    ensures Inv(v) && v == Next(w, e) && Steps(w, e, v)
  {
    StepKeeps(w, e);
    v := Next(w, e);
  }

  const STARTED := World(Listener(true, [false], None, None, false), 0, [None], [], [])
  const PREPARED := World(Listener(true, [false], None, Some("s"), false), 0, [None], [Handler(REDIRECT, WaitingForLock(0))], [])

  lemma StartUp() returns (w1: World)
    ensures Steps(INIT, BeginStart, w1) && Steps(w1, FinishStart, STARTED) && Inv(STARTED)
  {
    w1 := Go(INIT, BeginStart);
    var w2 := Go(w1, FinishStart);
    assert w2 == STARTED;
  }

  lemma Prepare() returns (w3: World, w4: World)
    requires Inv(STARTED)
    ensures Steps(STARTED, Arm("s"), w3) && Steps(w3, Connect, w4)
    ensures Steps(w4, Read(0, Some(REDIRECT)), PREPARED) && Inv(PREPARED)
  {
    w3 := Go(STARTED, Arm("s"));
    w4 := Go(w3, Connect);
    var w5 := Go(w4, Read(0, Some(REDIRECT)));
    assert w5 == PREPARED;
  }

  lemma AcceptLate() returns (w6: World, w7: World, w8: World)
    requires Inv(PREPARED)
    ensures Steps(PREPARED, TakeLock(0), w6) && Steps(w6, DeadlinePasses, w7) && Steps(w7, Wait("s"), w8)
    ensures w8.listener.result == Some(REDIRECT) && w8.waiters == [Answered(DeadlinePassed)]
  {
    w6 := Go(PREPARED, TakeLock(0));
    w7 := Go(w6, DeadlinePasses);
    w8 := Go(w7, Wait("s"));
  }

  /** Such a run: the redirect is accepted, the deadline passes, and the wait that comes only then
      raises although the result is stored. */
  lemma LateWaitRaises() returns (ws: seq<World>, es: seq<Event>)
    ensures IsRun(ws, es) && |es| == 8
    ensures es == [BeginStart, FinishStart, Arm("s"), Connect, Read(0, Some(REDIRECT)), TakeLock(0), DeadlinePasses, Wait("s")]
    ensures ws[8].listener.result == Some(REDIRECT) && ws[8].waiters == [Answered(DeadlinePassed)]
  {
    var w1 := StartUp();
    var w3, w4 := Prepare();
    var w6, w7, w8 := AcceptLate();
    ws := [INIT, w1, STARTED, w3, w4, PREPARED, w6, w7, w8];
    es := [BeginStart, FinishStart, Arm("s"), Connect, Read(0, Some(REDIRECT)), TakeLock(0), DeadlinePasses, Wait("s")];
  }

  /** No waiter sleeps through the acceptance: once a redirect is accepted, everybody waiting can wake
      up with its result. */
  lemma NobodyWaitsInVain(ws: seq<World>, es: seq<Event>, i: nat, k: nat)
    requires IsRun(ws, es) && i < |ws| && IsWaiting(ws[i], k) && ws[i].listener.result.Some?
    ensures Inv(ws[i]) && Enabled(ws[i], WakeUp(k))
    ensures Next(ws[i], WakeUp(k)).waiters[k] == Answered(Redirect(ws[i].listener.result.value))
  {
    RunInvariant(ws, es, i);
    assert WaiterOk(ws[i], k);
  }

  // ---- every connection is answered --------------------------------------------------------------------

  predicate Progress(e: Event) { e.Read? || e.TakeLock? || e.Finish? }

  function Work(pc: Pc): nat {
    match pc case Reading => 3 case WaitingForLock(_) => 2 case Responding(_, _) => 1 case Closed(_) => 0
  }

  const WORK: Handler -> nat := (h: Handler) => Work(h.pc)

  /** While a connection is open, some connection can get on. */
  lemma NoDeadlock(ws: seq<World>, es: seq<Event>, i: nat, h: nat)
    requires IsRun(ws, es) && i < |ws| && IsOpen(ws[i], h)
    ensures exists e :: Progress(e) && Enabled(ws[i], e)
  {
    RunInvariant(ws, es, i);
    var w := ws[i];
    assert HandlerOk(w, h);
    var e := match w.handlers[h].pc
      case Reading => Read(h, None)
      case WaitingForLock(l) => if w.locks[l] == None then TakeLock(h) else Finish(w.locks[l].value)
      case _ => Finish(h);
    assert w.handlers[h].pc.WaitingForLock? ==> LockOk(w, w.handlers[h].pc.lock);
    assert Progress(e) && Enabled(w, e);
  }

  /** Getting on takes work off one connection, which stays open unless it is closed with a response. */
  lemma HandlerStep(ws: seq<World>, es: seq<Event>, i: nat)
    requires IsRun(ws, es) && i < |es| && Progress(es[i])
    ensures |ws[i + 1].handlers| == |ws[i].handlers| && Total(WORK, ws[i + 1].handlers) < Total(WORK, ws[i].handlers)
    ensures es[i].Finish? ==> es[i].handler < |ws[i + 1].handlers| && ws[i + 1].handlers[es[i].handler].pc.Closed?
                              && ws[i + 1].handlers[es[i].handler].pc.reply.Some?
    ensures forall h: nat :: IsOpen(ws[i], h) ==> IsOpen(ws[i + 1], h) || (es[i].Finish? && h == es[i].handler)
  {
    RunStep(ws, es, i);
    var h := es[i].handler;
    assert HandlerOk(ws[i], h);
    TotalUpdate(WORK, ws[i].handlers, h, ws[i + 1].handlers[h]);
  }

  /** Left to themselves the open connections are all answered and closed, in whatever order they get
      on, and none is closed without a response. */
  lemma {:induction false} EveryConnectionAnswered(ws: seq<World>, es: seq<Event>, i: nat)
    requires IsRun(ws, es) && i < |ws|
    requires forall j :: i <= j < |es| ==> Progress(es[j])
    ensures |es| - i <= Total(WORK, ws[i].handlers)
    ensures |ws[|es|].handlers| == |ws[i].handlers|
    ensures (forall e :: Enabled(ws[|es|], e) ==> !Progress(e)) ==>
              forall h: nat :: IsOpen(ws[i], h) ==> ws[|es|].handlers[h].pc.Closed? && ws[|es|].handlers[h].pc.reply.Some?
    decreases |es| - i
  {
    if i < |es| {
      HandlerStep(ws, es, i);
      EveryConnectionAnswered(ws, es, i + 1);
      if es[i].Finish? { ClosedStays(ws, es, i + 1, es[i].handler); }
    } else if forall e :: Enabled(ws[i], e) ==> !Progress(e) {
      forall h: nat | IsOpen(ws[i], h) ensures false {
        NoDeadlock(ws, es, i, h);
      }
    }
  }

  lemma {:induction false} ClosedStays(ws: seq<World>, es: seq<Event>, i: nat, h: nat)
    requires IsRun(ws, es) && i < |ws| && h < |ws[i].handlers| && ws[i].handlers[h].pc.Closed?
    ensures h < |ws[|es|].handlers| && ws[|es|].handlers[h] == ws[i].handlers[h]
    decreases |es| - i
  {
    if i < |es| {
      RunStep(ws, es, i);
      ClosedStays(ws, es, i + 1, h);
    }
  }
}
