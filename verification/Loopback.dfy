/** The single-accept redirect listener: any number of connection handlers and waiters interleaved
    over one accept lock, one accept event and one result slot. One step is one stretch between two
    `await`s; waiters of a lock are not ordered, and further connections may always arrive. */
module Loopback {
  import opened Wrappers

  type Query = map<string, string>

  /** `events` are the accept events created so far, the newest last; overlapping calls of start each
      create one. `expired` says whether the deadline, counted from start, has passed. */
  datatype Listener = Listener(server: bool, events: seq<bool>, result: Option<Query>, expected: Option<string>, expired: bool)

  datatype Code = Accepted | AlreadyUsed | Invalid

  /** What a call of wait_for_redirect ends with. */
  datatype Answer = Redirect(query: Query) | NotStarted | DeadlinePassed | WaitCancelled

  const UNUSED := Listener(false, [], None, None, false)

  predicate IsSet(s: Listener) {
    s.events != [] && s.events[|s.events| - 1]
  }

  predicate Matches(s: Listener, q: Query) {
    s.expected.Some? && "state" in q && q["state"] == s.expected.value
  }

  function Verdict(s: Listener, q: Query): Code {
    if IsSet(s) then AlreadyUsed else if Matches(s, q) then Accepted else Invalid
  }

  function Commit(s: Listener, q: Query): Listener
    requires s.events != []
  {
    s.(result := Some(q), events := s.events[|s.events| - 1 := true])
  }

  function Starting(s: Listener): Listener { s.(events := s.events + [false]) }

  function Started(s: Listener): Listener { s.(server := true, expired := false) }

  /** The object itself, one method for each stretch. */
  class LoopbackListener {
    var server: bool
    var events: seq<bool>
    var result: Option<Query>
    var expected: Option<string>
    var expired: bool

    ghost function View(): Listener
      reads this
    {
      Listener(server, events, result, expected, expired)
    }

    constructor ()
      ensures View() == UNUSED && !server && events == [] && result == None && expected == None
    {
      server, events, result, expected, expired := false, [], None, None, false;
    }

    /** start, up to the bind. `again` stands for the RuntimeError. */
    method BeginStart() returns (again: bool)
      modifies this`events
      ensures again == server
      ensures View() == if again then old(View()) else Starting(old(View()))
      ensures events == if again then old(events) else old(events) + [false]
    {
      if server {
        return true;
      }
      events := events + [false];
      return false;
    }

    /** start, after the bind. */
    method FinishStart()
      modifies this`server, this`expired
      ensures View() == Started(old(View())) && server && !expired && events == old(events)
    {
      server := true;
      expired := false;
    }

    method Arm(state: string) returns (early: bool)
      modifies this`expected
      ensures early == !server
      ensures View() == if early then old(View()) else old(View()).(expected := Some(state))
    {
      if !server {
        return true;
      }
      expected := Some(state);
      return false;
    }

    /** wait_for_redirect, up to the wait; `None` means that it goes on waiting. */
    method BeginWait(state: string) returns (answer: Option<Answer>)
      requires IsSet(View()) ==> result.Some?
      modifies this`expected
      ensures View() == if server then old(View()).(expected := Some(state)) else old(View())
      ensures answer == if !server then Some(NotStarted)
                        else if expired then Some(DeadlinePassed)
                        else if IsSet(View()) then Some(Redirect(result.value))
                        else None
    {
      if !server {
        return Some(NotStarted);
      }
      expected := Some(state);
      if expired {
        return Some(DeadlinePassed);
      }
      if events != [] && events[|events| - 1] {
        return Some(Redirect(result.value));
      }
      return None;
    }

    /** A handler's decision, made while it holds the accept lock. */
    method Decide(q: Query) returns (code: Code)
      requires events != []
      modifies this`result, this`events
      ensures code == Verdict(old(View()), q)
      ensures View() == if code == Accepted then Commit(old(View()), q) else old(View())
    {
      if events[|events| - 1] {
        return AlreadyUsed;
      }
      if expected == None || "state" !in q || q["state"] != expected.value {
        return Invalid;
      }
      result := Some(q);
      events := events[|events| - 1 := true];
      return Accepted;
    }
  }

  // ---- the interleaved system ----------------------------------------------------------------------

  /** `sent` is what the handler has written to its connection. A rejection is written with the
      accept lock held, the acceptance after its release. */
  datatype Pc = Reading | WaitingForLock(lock: nat) | Responding(sent: Code, held: Option<nat>) | Closed(reply: Option<Code>)

  datatype Handler = Handler(query: Query, pc: Pc)

  datatype Waiter = Waiting(event: nat) | Answered(answer: Answer)

  datatype World = World(listener: Listener, starting: nat, locks: seq<Option<nat>>, handlers: seq<Handler>, waiters: seq<Waiter>)

  datatype Event =
    | BeginStart
    | FinishStart
    | FailStart
    | Arm(state: string)
    | Wait(state: string)
    | WakeUp(waiter: nat)
    | GiveUp(waiter: nat)
    | CancelWait(waiter: nat)
    | DeadlinePasses
    | Connect
    | Read(handler: nat, query: Option<Query>)
    | TakeLock(handler: nat)
    | Finish(handler: nat)
    | CancelHandler(handler: nat)

  const INIT := World(UNUSED, 0, [], [], [])

  predicate IsWaiting(w: World, k: nat) { k < |w.waiters| && w.waiters[k].Waiting? }

  predicate IsOpen(w: World, h: nat) { h < |w.handlers| && !w.handlers[h].pc.Closed? }

  predicate Enabled(w: World, e: Event) {
    match e
    case BeginStart => !w.listener.server
    case FinishStart => w.starting > 0
    case FailStart => w.starting > 0
    case Arm(_) => w.listener.server
    case Wait(_) => true
    case WakeUp(k) => IsWaiting(w, k) && w.waiters[k].event < |w.listener.events| && w.listener.events[w.waiters[k].event]
    case GiveUp(k) => IsWaiting(w, k) && w.listener.expired
    case CancelWait(k) => IsWaiting(w, k)
    case DeadlinePasses => w.listener.server
    case Connect => w.locks != []
    case Read(h, _) => IsOpen(w, h) && w.handlers[h].pc.Reading?
    case TakeLock(h) => IsOpen(w, h) && w.handlers[h].pc.WaitingForLock?
                        && w.handlers[h].pc.lock < |w.locks| && w.locks[w.handlers[h].pc.lock] == None
    case Finish(h) => IsOpen(w, h) && w.handlers[h].pc.Responding?
    case CancelHandler(h) => IsOpen(w, h)
  }

  function SetPc(w: World, h: nat, pc: Pc): World
    requires h < |w.handlers|
  {
    w.(handlers := w.handlers[h := w.handlers[h].(pc := pc)])
  }

  function SetWaiter(w: World, k: nat, v: Waiter): World
    requires k < |w.waiters|
  {
    w.(waiters := w.waiters[k := v])
  }

  /** The handler ends, and lets go of the lock if it responded under it. */
  function CloseHandler(w: World, h: nat): World
    requires IsOpen(w, h)
    requires w.handlers[h].pc.Responding? && w.handlers[h].pc.held.Some? ==> w.handlers[h].pc.held.value < |w.locks|
  {
    var pc := w.handlers[h].pc;
    var w1 := if pc.Responding? && pc.held.Some? then w.(locks := w.locks[pc.held.value := None]) else w;
    SetPc(w1, h, Closed(if pc.Responding? then Some(pc.sent) else None))
  }

  /** From taking the accept lock to the write of the response. */
  function DecideAndRespond(w: World, h: nat): World
    requires Inv(w) && Enabled(w, TakeLock(h))
  {
    var l, q := w.handlers[h].pc.lock, w.handlers[h].query;
    assert HandlerOk(w, h);
    var code := Verdict(w.listener, q);
    if code == Accepted then SetPc(w.(listener := Commit(w.listener, q)), h, Responding(Accepted, None))
    else SetPc(w.(locks := w.locks[l := Some(h)]), h, Responding(code, Some(l)))
  }

  function BeginWait(w: World, state: string): World
    requires Inv(w)
  {
    var s := w.listener;
    if !s.server then w.(waiters := w.waiters + [Answered(NotStarted)]) else
      var answer := if s.expired then Answered(DeadlinePassed)
                    else if IsSet(s) then Answered(Redirect(s.result.value))
                    else Waiting(|s.events| - 1);
      w.(listener := s.(expected := Some(state)), waiters := w.waiters + [answer])
  }

  function Next(w: World, e: Event): World
    requires Inv(w) && Enabled(w, e)
  {
    match e
    case BeginStart => w.(listener := Starting(w.listener), starting := w.starting + 1, locks := w.locks + [None])
    case FinishStart => w.(listener := Started(w.listener), starting := w.starting - 1)
    case FailStart => w.(starting := w.starting - 1)
    case Arm(state) => w.(listener := w.listener.(expected := Some(state)))
    case Wait(state) => BeginWait(w, state)
    case WakeUp(k) => assert WaiterOk(w, k); SetWaiter(w, k, Answered(Redirect(w.listener.result.value)))
    case GiveUp(k) => SetWaiter(w, k, Answered(DeadlinePassed))
    case CancelWait(k) => SetWaiter(w, k, Answered(WaitCancelled))
    case DeadlinePasses => w.(listener := w.listener.(expired := true))
    case Connect => w.(handlers := w.handlers + [Handler(map[], Reading)])
    case Read(h, q) =>
      if q == None then SetPc(w, h, Responding(Invalid, None))
      else assert HandlerOk(w, h); w.(handlers := w.handlers[h := Handler(q.value, WaitingForLock(|w.locks| - 1))])
    case TakeLock(h) => DecideAndRespond(w, h)
    case Finish(h) => assert HandlerOk(w, h); CloseHandler(w, h)
    case CancelHandler(h) => assert HandlerOk(w, h); CloseHandler(w, h)
  }

  // ---- the invariant ---------------------------------------------------------------------------------

  /** The handler has written this response to its connection. */
  predicate Wrote(w: World, h: nat, code: Code) {
    h < |w.handlers|
    && match w.handlers[h].pc
       case Responding(c, _) => c == code
       case Closed(c) => c == Some(code)
       case _ => false
  }

  /** Set exactly when a result is stored, and only the newest event can be set. */
  predicate SlotOk(s: Listener) {
    && (s.result.Some? <==> IsSet(s))
    && (forall i :: 0 <= i < |s.events| - 1 ==> !s.events[i])
    && (s.server ==> s.events != [])
    && (!s.server ==> s.result == None && s.expected == None)
  }

  ghost predicate HandlerOk(w: World, h: nat)
    requires h < |w.handlers|
  {
    var pc := w.handlers[h].pc;
    && w.locks != []
    && (pc.WaitingForLock? ==> pc.lock < |w.locks|)
    && (pc.Responding? && pc.held.Some? ==> pc.sent != Accepted && pc.held.value < |w.locks| && w.locks[pc.held.value] == Some(h))
    && (Wrote(w, h, Accepted) ==> w.listener.result == Some(w.handlers[h].query))
  }

  ghost predicate WaiterOk(w: World, k: nat)
    requires k < |w.waiters|
  {
    match w.waiters[k]
    case Waiting(e) => w.listener.server && e == |w.listener.events| - 1
    case Answered(a) => a.Redirect? ==> w.listener.result == Some(a.query)
  }

  ghost predicate LockOk(w: World, l: nat)
    requires l < |w.locks|
  {
    w.locks[l].Some? ==>
      var h := w.locks[l].value;
      IsOpen(w, h) && w.handlers[h].pc.Responding? && w.handlers[h].pc.held == Some(l)
  }

  ghost predicate OneWinner(w: World) {
    && (forall h, g :: Wrote(w, h, Accepted) && Wrote(w, g, Accepted) ==> h == g)
    && (w.listener.result.Some? ==> exists h: nat :: Wrote(w, h, Accepted))
  }

  ghost predicate Inv(w: World) {
    && SlotOk(w.listener)
    && |w.locks| == |w.listener.events|
    && (w.starting > 0 ==> w.locks != [])
    && (forall h :: 0 <= h < |w.handlers| ==> HandlerOk(w, h))
    && (forall k :: 0 <= k < |w.waiters| ==> WaiterOk(w, k))
    && (forall l :: 0 <= l < |w.locks| ==> LockOk(w, l))
    && OneWinner(w)
  }
}
