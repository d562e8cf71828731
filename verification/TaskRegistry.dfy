/** One set of in-flight tasks per account and one for the application. A task leaves its set when its
    completion callback runs, which is some time after it is done. */
module TaskRegistry {
  import opened Wrappers

  const APP_SCOPE := "__app_scope__"

  function Normalize(account: Option<string>): string {
    if account == None then APP_SCOPE else account.value
  }

  /** The application's own tasks have a group of their own. */
  lemma NormalizedAs(account: Option<string>)
    ensures Normalize(account) == match account case None => "__app_scope__" case Some(a) => a
  {
  }

  // ---- the bookkeeping, over any kind of task -------------------------------------------------------

  type Groups<T(==)> = map<string, set<T>>

  function Bucket<T>(g: Groups<T>, key: string): set<T> {
    if key in g then g[key] else {}
  }

  function WithGroup<T>(g: Groups<T>, key: string): Groups<T> {
    if key in g then g else g[key := {}]
  }

  function Track<T>(g: Groups<T>, key: string, t: T): Groups<T> {
    g[key := Bucket(g, key) + {t}]
  }

  function Discard<T>(g: Groups<T>, key: string, t: T): Groups<T> {
    if key in g then g[key := g[key] - {t}] else g
  }

  function Destroy<T>(g: Groups<T>, key: string): Groups<T> {
    g - {key}
  }

  // ---- the registry object ---------------------------------------------------------------------------

  class Task {
    var done: bool
    var cancelRequested: bool

    constructor ()
      ensures !done && !cancelRequested
    {
      done, cancelRequested := false, false;
    }

    method Cancel()
      modifies this`cancelRequested
      ensures cancelRequested == (old(cancelRequested) || !done)
    {
      if !done {
        cancelRequested := true;
      }
    }
  }

  class Registry {
    var groups: Groups<Task>

    constructor ()
      ensures groups == map[]
    {
      groups := map[];
    }

    method GetOrCreateGroup(account: Option<string>)
      modifies this
      ensures groups == WithGroup(old(groups), Normalize(account))
    {
      var key := Normalize(account);
      if key !in groups {
        groups := groups[key := {}];
      }
    }

    /** Scheduling the coroutine makes a task that no group has seen. */
    method CreateTask(account: Option<string>) returns (task: Task)
      modifies this
      ensures fresh(task) && !task.done && !task.cancelRequested
      ensures groups == Track(old(groups), Normalize(account), task)
    {
      var key := Normalize(account);
      task := new Task();
      var bucket := {};
      if key in groups {
        bucket := groups[key];
      }
      groups := groups[key := bucket + {task}];
    }

    /** The completion callback. */
    method DiscardTask(key: string, task: Task)
      modifies this
      ensures groups == Discard(old(groups), key, task)
    {
      if key in groups {
        groups := groups[key := groups[key] - {task}];
      }
    }

    method CancelGroup(account: Option<string>)
      modifies Bucket(groups, Normalize(account))
      ensures forall t :: t in Bucket(groups, Normalize(account)) ==>
                t.done == old(t.done) && t.cancelRequested == (old(t.cancelRequested) || !old(t.done))
    {
      var key := Normalize(account);
      if key !in groups {
        return;
      }
      var bucket := groups[key];
      var rest := bucket;
      while rest != {}
        invariant rest <= bucket
        invariant forall t :: t in bucket ==> t.done == old(t.done)
        invariant forall t :: t in rest ==> t.cancelRequested == old(t.cancelRequested)
        invariant forall t :: t in bucket - rest ==> t.cancelRequested == (old(t.cancelRequested) || !old(t.done))
        decreases rest
      {
        var t :| t in rest;
        if !t.done {
          t.Cancel();
        }
        rest := rest - {t};
      }
    }

    method DestroyGroup(account: Option<string>)
      modifies this, Bucket(groups, Normalize(account))
      ensures groups == Destroy(old(groups), Normalize(account))
      ensures forall t :: t in old(Bucket(groups, Normalize(account))) ==>
                t.done == old(t.done) && t.cancelRequested == (old(t.cancelRequested) || !old(t.done))
    {
      CancelGroup(account);
      groups := groups - {Normalize(account)};
    }

    method PendingCount(account: Option<string>) returns (n: nat)
      ensures n == |set t | t in Bucket(groups, Normalize(account)) && !t.done|
    {
      var key := Normalize(account);
      n := 0;
      var bucket := {};
      if key in groups {
        bucket := groups[key];
      }
      var rest := bucket;
      ghost var counted: set<Task> := {};
      while rest != {}
        invariant rest <= bucket && counted == (set t | t in bucket - rest && !t.done)
        invariant n == |counted|
        decreases rest
      {
        var t :| t in rest;
        if !t.done {
          n := n + 1;
          counted := counted + {t};
        }
        rest := rest - {t};
      }
      assert counted == (set t | t in Bucket(groups, Normalize(account)) && !t.done);
    }
  }

  // ---- every run of the registry ---------------------------------------------------------------------

  /** `key` is the group the task was created under, `called` says that its completion callback ran. */
  datatype TaskState = TaskState(key: string, done: bool, cancelRequested: bool, called: bool)

  datatype World = World(groups: Groups<nat>, tasks: seq<TaskState>)

  datatype Event =
    | GetOrCreate(key: string)
    | Create(key: string)
    | Finish(task: nat)
    | Callback(task: nat)
    | CancelTask(task: nat)
    | CancelGroup(key: string)
    | DestroyGroup(key: string)

  const INIT := World(map[], [])

  predicate Enabled(w: World, e: Event) {
    match e
    case Finish(t) => t < |w.tasks| && !w.tasks[t].done
    case Callback(t) => t < |w.tasks| && w.tasks[t].done && !w.tasks[t].called
    case CancelTask(t) => t < |w.tasks|
    case _ => true
  }

  function Cancelled(t: TaskState): TaskState {
    if t.done then t else t.(cancelRequested := true)
  }

  /** Cancelling every task of a set. */
  function CancelAll(tasks: seq<TaskState>, victims: set<nat>): (r: seq<TaskState>)
    ensures |r| == |tasks|
    ensures forall t :: 0 <= t < |tasks| ==> r[t] == if t in victims then Cancelled(tasks[t]) else tasks[t]
  {
    seq(|tasks|, t requires 0 <= t < |tasks| => if t in victims then Cancelled(tasks[t]) else tasks[t])
  }

  function Next(w: World, e: Event): World
    requires Enabled(w, e)
  {
    match e
    case GetOrCreate(key) => w.(groups := WithGroup(w.groups, key))
    case Create(key) => World(Track(w.groups, key, |w.tasks|), w.tasks + [TaskState(key, false, false, false)])
    case Finish(t) => w.(tasks := w.tasks[t := w.tasks[t].(done := true)])
    case Callback(t) => World(Discard(w.groups, w.tasks[t].key, t), w.tasks[t := w.tasks[t].(called := true)])
    case CancelTask(t) => w.(tasks := w.tasks[t := Cancelled(w.tasks[t])])
    case CancelGroup(key) => w.(tasks := CancelAll(w.tasks, Bucket(w.groups, key)))
    case DestroyGroup(key) => World(Destroy(w.groups, key), CancelAll(w.tasks, Bucket(w.groups, key)))
  }

  ghost predicate Steps(w: World, e: Event, v: World) {
    Enabled(w, e) && v == Next(w, e)
  }

  ghost predicate IsRun(ws: seq<World>, es: seq<Event>) {
    && |ws| == |es| + 1
    && ws[0] == INIT
    && forall i {:trigger Steps(ws[i], es[i], ws[i + 1])} :: 0 <= i < |es| ==> Steps(ws[i], es[i], ws[i + 1])
  }

  /** Some step before `i` created task `t` under `key`, the group was not destroyed since, and the
      task's callback has not run since. */
  ghost predicate Held(ws: seq<World>, es: seq<Event>, i: nat, key: string, t: nat)
    requires |ws| == |es| + 1 && i < |ws|
  {
    exists j :: 0 <= j < i && es[j] == Create(key) && t == |ws[j].tasks|
                && forall m :: j < m < i ==> es[m] != DestroyGroup(key) && es[m] != Callback(t)
  }

  /** A group holds, at every moment, exactly the tasks created under its key since it was last
      destroyed whose callback has not run. */
  lemma {:induction false} BucketIff(ws: seq<World>, es: seq<Event>, i: nat, key: string, t: nat)
    requires IsRun(ws, es) && i < |ws|
    ensures t in Bucket(ws[i].groups, key) <==> Held(ws, es, i, key, t)
    ensures t in Bucket(ws[i].groups, key) ==> t < |ws[i].tasks| && ws[i].tasks[t].key == key
    decreases i
  {
    if i > 0 {
      var p := i - 1;
      BucketIff(ws, es, p, key, t);
      assert Steps(ws[p], es[p], ws[p + 1]);
      var e := es[p];
      var created := e == Create(key) && t == |ws[p].tasks|;
      var ended := e == DestroyGroup(key) || e == Callback(t);
      assert t in Bucket(ws[i].groups, key) <==> created || (t in Bucket(ws[p].groups, key) && !ended) by {
        BucketStep(ws, es, p, key, t);
      }
      HeldStep(ws, es, p, key, t);
    }
  }

  lemma BucketStep(ws: seq<World>, es: seq<Event>, p: nat, key: string, t: nat)
    requires IsRun(ws, es) && p < |es|
    requires t in Bucket(ws[p].groups, key) ==> t < |ws[p].tasks| && ws[p].tasks[t].key == key
    ensures t in Bucket(ws[p + 1].groups, key) <==>
              (es[p] == Create(key) && t == |ws[p].tasks|)
              || (t in Bucket(ws[p].groups, key) && es[p] != DestroyGroup(key) && es[p] != Callback(t))
  {
    assert Steps(ws[p], es[p], ws[p + 1]);
  }

  lemma HeldStep(ws: seq<World>, es: seq<Event>, p: nat, key: string, t: nat)
    requires IsRun(ws, es) && p < |es|
    ensures Held(ws, es, p + 1, key, t) <==>
              (es[p] == Create(key) && t == |ws[p].tasks|)
              || (Held(ws, es, p, key, t) && es[p] != DestroyGroup(key) && es[p] != Callback(t))
  {
    if Held(ws, es, p + 1, key, t) {
      var j :| 0 <= j < p + 1 && es[j] == Create(key) && t == |ws[j].tasks|
               && forall m :: j < m < p + 1 ==> es[m] != DestroyGroup(key) && es[m] != Callback(t);
      assert j < p ==> Held(ws, es, p, key, t);
    }
  }

  /** Cancelling or destroying a group asks for the cancellation of the unfinished tasks of that group
      and of no other task; only these two, and cancelling a task itself, ever do. */
  lemma CancellationIsContained(ws: seq<World>, es: seq<Event>, i: nat, t: nat)
    requires IsRun(ws, es) && i < |es| && t < |ws[i].tasks|
    ensures t < |ws[i + 1].tasks|
    ensures ws[i + 1].tasks[t].cancelRequested <==>
              ws[i].tasks[t].cancelRequested
              || (!ws[i].tasks[t].done
                  && (es[i] == CancelTask(t)
                      || ((es[i].CancelGroup? || es[i].DestroyGroup?) && Held(ws, es, i, es[i].key, t))))
  {
    assert Steps(ws[i], es[i], ws[i + 1]);
    if es[i].CancelGroup? || es[i].DestroyGroup? {
      BucketIff(ws, es, i, es[i].key, t);
    }
  }

  /** A group that is destroyed and used again starts from nothing: it only ever holds tasks created
      after the destruction. */
  lemma SuccessorStartsEmpty(ws: seq<World>, es: seq<Event>, j: nat, i: nat, key: string, t: nat)
    requires IsRun(ws, es) && j < i < |ws| && es[j] == DestroyGroup(key) && t in Bucket(ws[i].groups, key)
    ensures t >= |ws[j].tasks|
  {
    BucketIff(ws, es, i, key, t);
    var k :| 0 <= k < i && es[k] == Create(key) && t == |ws[k].tasks|
             && forall m :: k < m < i ==> es[m] != DestroyGroup(key) && es[m] != Callback(t);
    assert k > j;
    TasksOnlyGrow(ws, es, j, k);
  }

  /** A callback that arrives after its group was destroyed finds a successor group, if there is one,
      that never held its task, and leaves every group as it is. */
  lemma LateCallbackIsHarmless(ws: seq<World>, es: seq<Event>, j: nat, i: nat, key: string, t: nat)
    requires IsRun(ws, es) && j < i < |es| && es[j] == DestroyGroup(key)
    requires t < |ws[j].tasks| && ws[j].tasks[t].key == key && es[i] == Callback(t)
    ensures ws[i + 1].groups == ws[i].groups
  {
    assert Steps(ws[i], es[i], ws[i + 1]);
    TasksKeepKeys(ws, es, j, i, t);
    if t in Bucket(ws[i].groups, key) { SuccessorStartsEmpty(ws, es, j, i, key, t); }
    assert key in ws[i].groups ==> ws[i].groups[key] - {t} == ws[i].groups[key];
  }

  lemma {:induction false} TasksKeepKeys(ws: seq<World>, es: seq<Event>, j: nat, i: nat, t: nat)
    requires IsRun(ws, es) && j <= i < |ws| && t < |ws[j].tasks|
    ensures t < |ws[i].tasks| && ws[i].tasks[t].key == ws[j].tasks[t].key
    decreases i - j
  {
    if j < i {
      assert Steps(ws[j], es[j], ws[j + 1]);
      TasksKeepKeys(ws, es, j + 1, i, t);
    }
  }

  lemma {:induction false} TasksOnlyGrow(ws: seq<World>, es: seq<Event>, j: nat, i: nat)
    requires IsRun(ws, es) && j <= i < |ws|
    ensures |ws[j].tasks| <= |ws[i].tasks|
    decreases i - j
  {
    if j < i {
      assert Steps(ws[j], es[j], ws[j + 1]);
      TasksOnlyGrow(ws, es, j + 1, i);
    }
  }
}
