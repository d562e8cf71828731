/** The provider's one poll loop among everything else that happens in the task registry. */
module CloudPcPolling {
  import opened Wrappers
  import TR = TaskRegistry

  /** `polls` are the tasks ever started as poll loops. */
  datatype World = World(registry: TR.World, task: Option<nat>, account: Option<string>, polls: set<nat>)

  /** Anything may happen in the registry meanwhile: tasks finish, callbacks run, an account's group is
      cancelled when the account is switched away from and destroyed when it is signed out. */
  datatype Event = Registry(event: TR.Event) | StartPolling(account: string) | PausePolling | StopPolling

  const INIT := World(TR.INIT, None, None, {})

  predicate Enabled(w: World, e: Event) {
    e.Registry? ==> TR.Enabled(w.registry, e.event)
  }

  predicate Unfinished(w: World, t: nat) {
    t < |w.registry.tasks| && !w.registry.tasks[t].done
  }

  /** Not done, and nobody asked it to stop. */
  predicate Live(w: World, t: nat) {
    Unfinished(w, t) && !w.registry.tasks[t].cancelRequested
  }

  predicate Polls(w: World, t: nat, account: string) {
    t in w.polls && Live(w, t) && w.registry.tasks[t].key == account
  }

  ghost predicate IsPolled(w: World, account: string) {
    exists t: nat :: Polls(w, t, account)
  }

  predicate Active(w: World, account: string) {
    w.account == Some(account) && w.task.Some? && Unfinished(w, w.task.value)
  }

  function CancelCurrent(w: World): World {
    if w.task.Some? && Unfinished(w, w.task.value) then
      w.(registry := TR.Next(w.registry, TR.CancelTask(w.task.value)), task := None)
    else w.(task := None)
  }

  function Start(w: World, account: string): World {
    if Active(w, account) then w else
      var v := CancelCurrent(w);
      var t := |v.registry.tasks|;
      World(TR.Next(TR.Next(v.registry, TR.GetOrCreate(account)), TR.Create(account)), Some(t), Some(account), v.polls + {t})
  }

  function Next(w: World, e: Event): World
    requires Enabled(w, e)
  {
    match e
    case Registry(event) => w.(registry := TR.Next(w.registry, event))
    case StartPolling(a) => Start(w, a)
    case PausePolling => CancelCurrent(w)
    case StopPolling => CancelCurrent(w).(account := None)
  }

  ghost predicate Steps(w: World, e: Event, v: World) {
    Enabled(w, e) && v == Next(w, e)
  }

  ghost predicate IsRun(ws: seq<World>, es: seq<Event>) {
    && |ws| == |es| + 1
    && ws[0] == INIT
    && forall i {:trigger Steps(ws[i], es[i], ws[i + 1])} :: 0 <= i < |es| ==> Steps(ws[i], es[i], ws[i + 1])
  }

  /** The tracked task is a poll loop of the tracked account, and no other poll loop is live. */
  ghost predicate Inv(w: World) {
    && (forall t :: t in w.polls ==> t < |w.registry.tasks|)
    && (w.task.Some? ==> w.task.value in w.polls && w.account == Some(w.registry.tasks[w.task.value].key))
    && (forall t :: t in w.polls && Live(w, t) ==> w.task == Some(t))
  }

  lemma StepKeeps(w: World, e: Event)
    requires Inv(w) && Enabled(w, e)
    ensures Inv(Next(w, e))
  {
    var v := Next(w, e);
    forall t | t in w.polls ensures t < |v.registry.tasks| && v.registry.tasks[t].key == w.registry.tasks[t].key {
    }
    assert forall t :: t in w.polls && Live(v, t) ==> Live(w, t);
  }

  lemma {:induction false} RunInvariant(ws: seq<World>, es: seq<Event>, i: nat)
    requires IsRun(ws, es) && i < |ws|
    ensures Inv(ws[i])
  {
    if i > 0 {
      RunInvariant(ws, es, i - 1);
      var p := i - 1;
      assert Steps(ws[p], es[p], ws[p + 1]);
      StepKeeps(ws[i - 1], es[i - 1]);
    }
  }

  /** There are never two poll loops that are both neither done nor asked to stop, whatever is started,
      paused, resumed, stopped, switched and signed out; and a live one polls the tracked account. */
  lemma OneLivePoll(ws: seq<World>, es: seq<Event>, i: nat, t: nat, u: nat)
    requires IsRun(ws, es) && i < |ws|
    requires t in ws[i].polls && u in ws[i].polls && Live(ws[i], t) && Live(ws[i], u)
    ensures t == u && ws[i].account == Some(ws[i].registry.tasks[t].key)
  {
    RunInvariant(ws, es, i);
  }

  /** Pausing and stopping leave no live poll loop. */
  lemma PauseEndsPolling(ws: seq<World>, es: seq<Event>, i: nat, t: nat)
    requires IsRun(ws, es) && i < |es| && (es[i].PausePolling? || es[i].StopPolling?) && t in ws[i + 1].polls
    ensures !Live(ws[i + 1], t)
  {
    RunInvariant(ws, es, i);
    RunInvariant(ws, es, i + 1);
    assert Steps(ws[i], es[i], ws[i + 1]);
  }

  /** Starting, or resuming, is meant to leave the account polled. It does unless the account's poll
      loop was asked to stop from outside, by cancelling or destroying its group, and has not finished
      yet: then the call takes it for running and starts nothing. */
  lemma StartPollsIff(ws: seq<World>, es: seq<Event>, i: nat, a: string)
    requires IsRun(ws, es) && i < |es| && es[i] == StartPolling(a)
    ensures IsPolled(ws[i + 1], a) <==> !(Active(ws[i], a) && ws[i].registry.tasks[ws[i].task.value].cancelRequested)
  {
    RunInvariant(ws, es, i);
    RunInvariant(ws, es, i + 1);
    assert Steps(ws[i], es[i], ws[i + 1]);
    var t := ws[i + 1].task.value;
    assert Polls(ws[i + 1], t, a) <==> !(Active(ws[i], a) && ws[i].registry.tasks[ws[i].task.value].cancelRequested);
  }

  /** Such a run: an account is polled, its group is destroyed, and polling is started again before the
      cancelled poll loop has finished. Nothing polls. */
  lemma RestartAfterDestroyMayNotPoll(a: string) returns (ws: seq<World>, es: seq<Event>)
    ensures IsRun(ws, es) && |es| == 3
    ensures es == [StartPolling(a), Registry(TR.DestroyGroup(a)), StartPolling(a)]
    ensures forall t :: t in ws[3].polls ==> !Live(ws[3], t)
  {
    es := [StartPolling(a), Registry(TR.DestroyGroup(a)), StartPolling(a)];
    var w1 := Next(INIT, es[0]);
    var w2 := Next(w1, es[1]);
    var w3 := Next(w2, es[2]);
    ws := [INIT, w1, w2, w3];
    assert w2.registry.tasks[0].cancelRequested && w2.task == Some(0);
    assert Steps(ws[0], es[0], ws[1]) && Steps(ws[1], es[1], ws[2]) && Steps(ws[2], es[2], ws[3]);
    RunInvariant(ws, es, 3);
  }
}
