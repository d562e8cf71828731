/** What the single-flight protocol guarantees over every run: every interleaving of any number of
    acquisitions, sign-outs, sign-ins, re-authentications and cancellations, from a fresh manager. */
module SingleFlightRuns {
  import opened Measures
  import opened Wrappers
  import opened Scopes
  import opened Accounts
  import opened SingleFlight
  import opened SingleFlightInvariant
  import AuthErrors
  import AuthState

  /** One step. The invariant is no restriction: `RunInvariant` shows that it always holds. */
  ghost predicate Steps(w: World, e: Event, v: World) {
    Inv(w) && Enabled(w, e) && v == Next(w, e)
  }

  /** `ws` are the worlds between the events `es`, beginning with a fresh manager. */
  ghost predicate IsRun(ws: seq<World>, es: seq<Event>) {
    && |ws| == |es| + 1
    && ws[0] == INIT
    && forall i {:trigger Steps(ws[i], es[i], ws[i + 1])} :: 0 <= i < |es| ==> Steps(ws[i], es[i], ws[i + 1])
  }

  /** The invariant holds all along a run, and any event that is enabled at its end continues it. */
  lemma {:induction false} RunInvariant(ws: seq<World>, es: seq<Event>, i: nat)
    requires IsRun(ws, es) && i < |ws|
    ensures Inv(ws[i])
  {
    if i > 0 {
      var p := i - 1;
      assert Steps(ws[p], es[p], ws[p + 1]);
      StepKeeps(ws[i - 1], es[i - 1]);
    }
  }

  /** What a run's step does, without saying which. */
  lemma RunStep(ws: seq<World>, es: seq<Event>, i: nat)
    requires IsRun(ws, es) && i < |es|
    ensures Inv(ws[i]) && Inv(ws[i + 1]) && Enabled(ws[i], es[i]) && Moves(ws[i], es[i], ws[i + 1])
  {
    assert Steps(ws[i], es[i], ws[i + 1]);
    StepKeeps(ws[i], es[i]);
    StepMoves(ws[i], es[i]);
  }

  // ---- mutual exclusion ----------------------------------------------------------------------------

  predicate Leading(w: World, t: nat) {
    Busy(w, t) && w.tasks[t].pc.job.Lead?
  }

  /** Whatever is signed out or cancelled meanwhile: one lock object never admits two acquisitions,
      and whoever holds it is acquiring under the key the lock was made for. */
  lemma OneLeaderPerLock(ws: seq<World>, es: seq<Event>, i: nat, t: nat, u: nat)
    requires IsRun(ws, es) && i < |ws| && Leading(ws[i], t) && Leading(ws[i], u)
    requires ws[i].tasks[t].pc.job.lock == ws[i].tasks[u].pc.job.lock
    ensures t == u
    ensures var l := ws[i].tasks[t].pc.job.lock; l < |ws[i].locks| && ws[i].locks[l] == LockCell(ws[i].tasks[t].key, Some(t))
  {
    RunInvariant(ws, es, i);
    assert TaskOk(ws[i], t) && TaskOk(ws[i], u);
  }

  predicate LeadsKey(w: World, t: nat, k: Key) {
    Leading(w, t) && w.tasks[t].key == k
  }

  // ---- shared futures --------------------------------------------------------------------------------

  /** An unresolved future always has a live leader, whether or not its map entry is still there;
      and what the map holds is never resolved. */
  lemma PendingFuturesHaveLiveLeaders(ws: seq<World>, es: seq<Event>, i: nat)
    requires IsRun(ws, es) && i < |ws|
    ensures var w := ws[i];
            && (forall f :: 0 <= f < |w.futures| && w.futures[f].state.Pending? ==> Leads(w, w.futures[f].leader, f))
            && (forall k :: k in w.book.inflight ==>
                  && w.book.inflight[k] < |w.futures| && !w.futures[w.book.inflight[k]].state.Resolved?
                  && Leads(w, w.futures[w.book.inflight[k]].leader, w.book.inflight[k]))
  {
    var w := ws[i];
    RunInvariant(ws, es, i);
    forall f | 0 <= f < |w.futures| && w.futures[f].state.Pending? ensures Leads(w, w.futures[f].leader, f) {
      assert FutureOk(w, f) && TaskOk(w, w.futures[f].leader);
    }
    forall k | k in w.book.inflight
      ensures w.book.inflight[k] < |w.futures| && !w.futures[w.book.inflight[k]].state.Resolved?
              && Leads(w, w.futures[w.book.inflight[k]].leader, w.book.inflight[k])
    {
      assert Leads(w, w.futures[w.book.inflight[k]].leader, w.book.inflight[k]) && TaskOk(w, w.futures[w.book.inflight[k]].leader);
    }
  }

  /** An arriving call that follows a future finds its leader at work. */
  lemma ArriveJoins(w: World, r: Request)
    requires Core(w) && Begin(w, r).tasks[|w.tasks|].pc.Following?
    ensures var f := Begin(w, r).tasks[|w.tasks|].pc.shared; f < |w.futures| && Leads(w, w.futures[f].leader, f)
  {
    var f := w.book.inflight[KeyFor(r)];
    assert Leads(w, w.futures[f].leader, f);
  }

  lemma LockJoins(w: World, t: nat, l: nat)
    requires AtTheLock(w, t, l) && UnderLock(w, t, l).tasks[t].pc.Following?
    ensures var f := UnderLock(w, t, l).tasks[t].pc.shared; f < |w.futures| && Leads(w, w.futures[f].leader, f)
  {
    var f := w.book.inflight[w.tasks[t].key];
    assert Leads(w, w.futures[f].leader, f);
  }

  /** `t` follows `f` after the step and did not follow before it. */
  ghost predicate Joins(w: World, v: World, t: nat, f: nat) {
    t < |v.tasks| && v.tasks[t].pc.Following? && v.tasks[t].pc.shared == f && (t < |w.tasks| ==> !w.tasks[t].pc.Following?)
  }

  lemma JoinersMove(w: World, e: Event, v: World, t: nat, f: nat)
    requires Enabled(w, e) && Moves(w, e, v) && Joins(w, v, t, f)
    ensures (e.Arrive? && t == |w.tasks|) || e == TakeLock(t)
  {
    if e.Arrive? { assert forall u :: 0 <= u < |w.tasks| ==> v.tasks[u] == v.tasks[..|w.tasks|][u]; }
  }

  /** The calls overlap: whenever a call starts to follow a future, the future's leader is still at
      work on it. */
  lemma FollowersJoinLiveLeaders(ws: seq<World>, es: seq<Event>, i: nat, t: nat, f: nat)
    requires IsRun(ws, es) && i < |es| && Joins(ws[i], ws[i + 1], t, f)
    ensures f < |ws[i].futures| && Leads(ws[i], ws[i].futures[f].leader, f)
  {
    RunStep(ws, es, i);
    JoinersMove(ws[i], es[i], ws[i + 1], t, f);
    assert Steps(ws[i], es[i], ws[i + 1]);
    if es[i].Arrive? {
      ArriveJoins(ws[i], es[i].request);
    } else {
      assert TaskOk(ws[i], t);
      LockJoins(ws[i], t, ws[i].tasks[t].pc.awaited);
    }
  }

  /** The event cancels a task that awaits the unresolved future `f`. */
  ghost predicate KillsFuture(w: World, e: Event, f: nat) {
    e.Cancel? && Kills(w, e.task) && w.tasks[e.task].pc.shared == f
  }

  lemma FuturesStep(ws: seq<World>, es: seq<Event>, i: nat, f: nat)
    requires IsRun(ws, es) && i < |es|
    ensures |ws[i].futures| <= |ws[i + 1].futures|
    ensures f < |ws[i].futures| ==> (ws[i + 1].futures[f].state.Killed? <==> ws[i].futures[f].state.Killed? || KillsFuture(ws[i], es[i], f))
    ensures |ws[i].futures| <= f < |ws[i + 1].futures| ==> !ws[i + 1].futures[f].state.Killed? && !KillsFuture(ws[i], es[i], f)
  {
    RunStep(ws, es, i);
  }

  /** A future is killed exactly when some follower was cancelled while awaiting it: nothing else,
      sign-out included, ever comes between a leader and its followers. */
  lemma {:induction false} KilledIffFollowerCancelled(ws: seq<World>, es: seq<Event>, i: nat, f: nat)
    requires IsRun(ws, es) && i < |ws| && f < |ws[i].futures|
    ensures ws[i].futures[f].state.Killed? <==> exists j :: 0 <= j < i && KillsFuture(ws[j], es[j], f)
  {
    if i > 0 {
      FuturesStep(ws, es, i - 1, f);
      if f < |ws[i - 1].futures| {
        KilledIffFollowerCancelled(ws, es, i - 1, f);
      } else {
        forall j | 0 <= j < i ensures !KillsFuture(ws[j], es[j], f) { FewerFutures(ws, es, j, i - 1); }
      }
    }
  }

  lemma {:induction false} FewerFutures(ws: seq<World>, es: seq<Event>, j: nat, i: nat)
    requires IsRun(ws, es) && j <= i < |ws|
    ensures |ws[j].futures| <= |ws[i].futures|
    decreases i - j
  {
    if j < i {
      FuturesStep(ws, es, j, 0);
      FewerFutures(ws, es, j + 1, i);
    }
  }

  // ---- the cache-write serializer --------------------------------------------------------------------

  /** An executor thread that outlived its task: the task no longer holds the serializer. */
  predicate Orphan(w: World, t: nat) {
    t in w.threads && w.serializer != Some(t)
  }

  predicate Orphans(w: World, e: Event, t: nat) {
    e == Cancel(t) && t < |w.tasks| && w.tasks[t].pc.Writing?
  }

  lemma ThreadsStep(ws: seq<World>, es: seq<Event>, i: nat, t: nat)
    requires IsRun(ws, es) && i < |es|
    ensures Orphan(ws[i + 1], t) <==> (Orphan(ws[i], t) && es[i] != ThreadEnds(t)) || Orphans(ws[i], es[i], t)
  {
    RunStep(ws, es, i);
  }

  /** Event `j` cancelled task `t` in the middle of its write, and its thread had not ended by `i`. */
  ghost predicate OrphanedAt(ws: seq<World>, es: seq<Event>, i: nat, t: nat, j: nat)
    requires |ws| == |es| + 1 && i < |ws|
  {
    j < i && Orphans(ws[j], es[j], t) && forall k :: j < k < i ==> es[k] != ThreadEnds(t)
  }

  /** The precise reach of the serializer. A cache-mutating call is in progress without holding it
      exactly when its task was cancelled during the call and the thread has not ended since. */
  lemma {:induction false} OrphanIffWriterCancelled(ws: seq<World>, es: seq<Event>, i: nat, t: nat)
    requires IsRun(ws, es) && i < |ws|
    ensures Orphan(ws[i], t) <==> Orphaned(ws, es, i, t)
  {
    if i > 0 {
      ThreadsStep(ws, es, i - 1, t);
      OrphanIffWriterCancelled(ws, es, i - 1, t);
      OrphanedLater(ws, es, i - 1, t);
    }
  }

  ghost predicate Orphaned(ws: seq<World>, es: seq<Event>, i: nat, t: nat)
    requires |ws| == |es| + 1 && i < |ws|
  {
    exists j: nat :: OrphanedAt(ws, es, i, t, j)
  }

  lemma OrphanedLater(ws: seq<World>, es: seq<Event>, i: nat, t: nat)
    requires |ws| == |es| + 1 && i < |es|
    ensures Orphaned(ws, es, i + 1, t) <==> Orphans(ws[i], es[i], t) || (es[i] != ThreadEnds(t) && Orphaned(ws, es, i, t))
  {
    if Orphaned(ws, es, i + 1, t) {
      var j: nat :| OrphanedAt(ws, es, i + 1, t, j);
      if j < i { assert OrphanedAt(ws, es, i, t, j); }
    }
    if Orphans(ws[i], es[i], t) { assert OrphanedAt(ws, es, i + 1, t, i); }
    if es[i] != ThreadEnds(t) && Orphaned(ws, es, i, t) {
      var j: nat :| OrphanedAt(ws, es, i, t, j);
      assert OrphanedAt(ws, es, i + 1, t, j);
    }
  }

  /** So while no task is cancelled in the middle of its write, at most one cache-mutating call is in
      progress across all accounts and all kinds of operation. */
  lemma OneWriter(ws: seq<World>, es: seq<Event>, i: nat, t: nat, u: nat)
    requires IsRun(ws, es) && i < |ws|
    requires forall j, x: nat :: 0 <= j < i ==> !Orphans(ws[j], es[j], x)
    requires t in ws[i].threads && u in ws[i].threads
    ensures t == u && ws[i].serializer == Some(t)
  {
    OrphanIffWriterCancelled(ws, es, i, t);
    OrphanIffWriterCancelled(ws, es, i, u);
  }

  // ---- progress ---------------------------------------------------------------------------------------

  /** The steps by which calls already under way get on: no arrivals, no cancellations. */
  predicate Progress(e: Event) {
    e.TakeLock? || e.Found? || e.FindFails? || e.TakeSerializer? || e.Answer? || e.Resume?
  }

  lemma BusyGetsOn(w: World, t: nat) returns (e: Event)
    requires Inv(w) && Busy(w, t)
    ensures Progress(e) && Enabled(w, e)
  {
    if w.tasks[t].pc.Finding? {
      e := Found(t, true);
    } else if w.tasks[t].pc.Writing? {
      e := Answer(t, Crash);
    } else if w.serializer == None {
      e := TakeSerializer(t);
    } else {
      e := Answer(w.serializer.value, Crash);
    }
  }

  lemma FollowerGetsOn(w: World, t: nat) returns (e: Event)
    requires Inv(w) && t < |w.tasks| && w.tasks[t].pc.Following?
    ensures Progress(e) && Enabled(w, e)
  {
    assert TaskOk(w, t);
    var f := w.tasks[t].pc.shared;
    if w.futures[f].state.Pending? {
      assert FutureOk(w, f) && TaskOk(w, w.futures[f].leader);
      e := BusyGetsOn(w, w.futures[f].leader);
    } else {
      e := Resume(t);
    }
  }

  /** Per-key lock before serializer is the only order in which the two are held, so no reachable
      world is stuck: while some call has not returned, some call can get on. */
  lemma NoDeadlock(ws: seq<World>, es: seq<Event>, i: nat, t: nat)
    requires IsRun(ws, es) && i < |ws| && t < |ws[i].tasks| && !ws[i].tasks[t].pc.Done?
    ensures exists e :: Progress(e) && Enabled(ws[i], e)
  {
    RunInvariant(ws, es, i);
    var w := ws[i];
    var e: Event;
    if Busy(w, t) {
      e := BusyGetsOn(w, t);
    } else if w.tasks[t].pc.Following? {
      e := FollowerGetsOn(w, t);
    } else {
      assert TaskOk(w, t);
      var owner := w.locks[w.tasks[t].pc.awaited].owner;
      if owner == None {
        e := TakeLock(t);
      } else if Busy(w, owner.value) {
        e := BusyGetsOn(w, owner.value);
      } else {
        assert HoldsLock(w.tasks[owner.value].pc, w.tasks[t].pc.awaited);
        e := FollowerGetsOn(w, owner.value);
      }
    }
    assert Progress(e) && Enabled(ws[i], e);
  }

  const WORK: Task -> nat := (t: Task) => Work(t.pc)

  lemma ProgressShrinks(w: World, e: Event, v: World)
    requires Enabled(w, e) && Moves(w, e, v) && Progress(e)
    ensures Total(WORK, v.tasks) < Total(WORK, w.tasks)
  {
    TotalUpdate(WORK, w.tasks, e.task, v.tasks[e.task]);
  }

  /** Every call returns. From any reachable world, calls getting on by themselves take at most as
      many steps as the world has work left, in whatever order, and where no step is left every
      call is done. */
  lemma {:induction false} EveryCallReturns(ws: seq<World>, es: seq<Event>, i: nat)
    requires IsRun(ws, es) && i < |ws|
    requires forall j :: i <= j < |es| ==> Progress(es[j])
    ensures |es| - i <= Total(WORK, ws[i].tasks)
    ensures (forall e :: Enabled(ws[|es|], e) ==> !Progress(e)) ==>
              forall t :: 0 <= t < |ws[|es|].tasks| ==> ws[|es|].tasks[t].pc.Done?
    decreases |es| - i
  {
    if i < |es| {
      RunStep(ws, es, i);
      ProgressShrinks(ws[i], es[i], ws[i + 1]);
      EveryCallReturns(ws, es, i + 1);
    } else if forall e :: Enabled(ws[i], e) ==> !Progress(e) {
      forall t | 0 <= t < |ws[i].tasks| ensures ws[i].tasks[t].pc.Done? {
        if !ws[i].tasks[t].pc.Done? { NoDeadlock(ws, es, i, t); }
      }
    }
  }
}
