/** What each acquisition ends with: a leader with what its own acquisition gave, a follower with what its
    leader ended with, and how a cancellation comes between the two. */
module SingleFlightOutcomes {
  import opened Wrappers
  import opened Scopes
  import opened Accounts
  import opened SingleFlight
  import opened SingleFlightInvariant
  import opened SingleFlightRuns
  import opened SingleFlightExclusion
  import AuthState

  // ---- leaders -------------------------------------------------------------------------------------------

  /** What the leader's own acquisition gives when event `e` ends it. */
  function OwnOutcome(w: World, e: Event, subject: nat): Outcome
    requires subject < |w.accounts|
  {
    match e
    case Found(_, _) => Raised(AuthState.Reauth)
    case FindFails(_) => Raised(AuthState.Unclassified)
    case Answer(_, reply) => SilentOutcome(w.accounts[subject].view, reply)
    case _ => Cancelled
  }

  /** A leader that ends comes back through its own future, with nothing if that was killed. */
  ghost predicate EndsAsLeader(w: World, e: Event, pc: Pc, lead: Job)
    requires lead.Lead? && lead.subject < |w.accounts| && lead.future < |w.futures|
  {
    pc == Done(if w.futures[lead.future].state.Killed? then InvalidState else OwnOutcome(w, e, lead.subject), Some(lead.future))
  }

  lemma FoundEnds(w: World, t: nat, present: bool)
    requires Inv(w) && Enabled(w, Found(t, present)) && Leading(w, t) && TaskOk(w, t)
    ensures var v := AfterFind(w, t, present);
            |v.tasks| == |w.tasks| && (v.tasks[t].pc.Done? ==> EndsAsLeader(w, Found(t, present), v.tasks[t].pc, w.tasks[t].pc.job))
  {
  }

  lemma AnswerEnds(w: World, t: nat, reply: Reply)
    requires Inv(w) && Enabled(w, Answer(t, reply)) && Leading(w, t) && TaskOk(w, t)
    ensures var v := Next(w, Answer(t, reply));
            |v.tasks| == |w.tasks| && EndsAsLeader(w, Answer(t, reply), v.tasks[t].pc, w.tasks[t].pc.job)
  {
    WrittenIsCore(w, t);
  }

  lemma LeadStepEnds(w: World, e: Event, t: nat)
    requires Inv(w) && Enabled(w, e) && Leading(w, t) && (e.Found? || e.FindFails? || e.Answer? || e.Cancel?) && e.task == t
    requires |Next(w, e).tasks| == |w.tasks| && Next(w, e).tasks[t].pc.Done?
    ensures var lead := w.tasks[t].pc.job;
            lead.subject < |w.accounts| && lead.future < |w.futures| && EndsAsLeader(w, e, Next(w, e).tasks[t].pc, lead)
  {
    assert TaskOk(w, t);
    if e.Found? { FoundEnds(w, t, e.present); } else if e.Answer? { AnswerEnds(w, t, e.reply); }
  }

  /** The leader's last step is its own. */
  lemma EndingEvent(w: World, e: Event, v: World, t: nat)
    requires Enabled(w, e) && Moves(w, e, v) && Busy(w, t) && |w.tasks| <= |v.tasks| && v.tasks[t].pc.Done?
    ensures (e.Found? || e.FindFails? || e.Answer? || e.Cancel?) && e.task == t && |v.tasks| == |w.tasks|
  {
  }

  /** A leader ends with exactly what its own acquisition gave it, unless some follower was cancelled while
      awaiting its future; then it ends with an invalid-state error instead. */
  lemma LeaderLosesOutcomeIff(ws: seq<World>, es: seq<Event>, i: nat, t: nat)
    requires IsRun(ws, es) && i < |es| && Leading(ws[i], t)
    requires |ws[i].tasks| <= |ws[i + 1].tasks| && ws[i + 1].tasks[t].pc.Done?
    ensures var lead, pc := ws[i].tasks[t].pc.job, ws[i + 1].tasks[t].pc;
            && lead.subject < |ws[i].accounts| && pc.via == Some(lead.future)
            && OwnOutcome(ws[i], es[i], lead.subject) != InvalidState
            && (pc.outcome == OwnOutcome(ws[i], es[i], lead.subject) <==>
                  !exists j :: 0 <= j < i && KillsFuture(ws[j], es[j], lead.future))
            && (pc.outcome != OwnOutcome(ws[i], es[i], lead.subject) ==> pc.outcome == InvalidState)
    ensures var own := OwnOutcome(ws[i], es[i], ws[i].tasks[t].pc.job.subject);
            match es[i]
            case Answer(_, Success(token)) => own == Token(token)
            case Answer(_, NetworkDown) => own == Raised(AuthState.OfflineNoToken)
            case Answer(_, Crash) => own == Raised(AuthState.Unclassified)
            case Answer(_, Failure(result)) =>
              own.Raised? && exists b :: AuthState.FailsWith(ws[i].accounts[ws[i].tasks[t].pc.job.subject].view, result, None, b, own.error)
            case Found(_, _) => own == Raised(AuthState.Reauth)
            case FindFails(_) => own == Raised(AuthState.Unclassified)
            case _ => own == Cancelled
  {
    RunStep(ws, es, i);
    EndingEvent(ws[i], es[i], ws[i + 1], t);
    assert Steps(ws[i], es[i], ws[i + 1]);
    LeadStepEnds(ws[i], es[i], t);
    if es[i].Answer? && es[i].reply.Failure? {
      AuthState.FailureTable(ws[i].accounts[ws[i].tasks[t].pc.job.subject].view, es[i].reply.result, None);
    }
    KilledIffFollowerCancelled(ws, es, i, ws[i].tasks[t].pc.job.future);
  }

  // ---- followers -----------------------------------------------------------------------------------------

  /** The call is cancelled before it has anything to come back with, or before it could come back with
      it: while waiting for the lock, or between its future's resolution and its own next turn. */
  ghost predicate CutsOff(w: World, e: Event, t: nat) {
    e == Cancel(t) && t < |w.tasks| && (w.tasks[t].pc.WaitingForLock? || (w.tasks[t].pc.Following? && !Kills(w, t)))
  }

  lemma TakeLockEnds(w: World, t: nat, l: nat)
    requires AtTheLock(w, t, l)
    ensures var pc := UnderLock(w, t, l).tasks[t].pc; pc.Done? ==> pc.via.Some?
  {
  }

  /** How one step changes an acquisition's position. */
  lemma PositionStep(w: World, e: Event, t: nat)
    requires Inv(w) && Enabled(w, e) && t < |w.tasks| <= |Next(w, e).tasks| && w.tasks[t].request.Acquire? && !w.tasks[t].pc.Done?
    requires Moves(w, e, Next(w, e))
    ensures var pc := Next(w, e).tasks[t].pc;
            && (pc.Done? ==> (pc.via == None <==> CutsOff(w, e, t)))
            && (!pc.Done? ==> !CutsOff(w, e, t))
            && (w.tasks[t].pc.Following? && !pc.Done? ==> pc == w.tasks[t].pc)
            && (w.tasks[t].pc.Following? && pc.Done? && pc.via.Some? ==> pc.via.value == w.tasks[t].pc.shared)
  {
    assert TaskOk(w, t);
    var pc := Next(w, e).tasks[t].pc;
    if pc.Done? && Busy(w, t) {
      EndingEvent(w, e, Next(w, e), t);
      LeadStepEnds(w, e, t);
    } else if e == TakeLock(t) {
      TakeLockEnds(w, t, w.tasks[t].pc.awaited);
    } else {
      OtherPositionStep(w, e, t);
    }
  }

  /** A call that awaits a lock or a future, and does not get the lock. */
  lemma OtherPositionStep(w: World, e: Event, t: nat)
    requires Inv(w) && Enabled(w, e) && t < |w.tasks| <= |Next(w, e).tasks| && !w.tasks[t].pc.Done? && e != TakeLock(t)
    requires Moves(w, e, Next(w, e)) && !(Busy(w, t) && Next(w, e).tasks[t].pc.Done?)
    ensures var pc := Next(w, e).tasks[t].pc;
            && (pc.Done? ==> (pc.via == None <==> CutsOff(w, e, t)))
            && (!pc.Done? ==> !CutsOff(w, e, t))
            && (w.tasks[t].pc.Following? && !pc.Done? ==> pc == w.tasks[t].pc)
            && (w.tasks[t].pc.Following? && pc.Done? && pc.via.Some? ==> pc.via.value == w.tasks[t].pc.shared)
  {
    if e.Arrive? { assert Next(w, e).tasks[t] == Next(w, e).tasks[..|w.tasks|][t]; }
  }

  ghost predicate CutOffBefore(ws: seq<World>, es: seq<Event>, i: nat, t: nat)
    requires |ws| == |es| + 1 && i < |ws|
  {
    exists m: nat :: m < i && CutsOff(ws[m], es[m], t)
  }

  lemma CutOffLater(ws: seq<World>, es: seq<Event>, i: nat, t: nat)
    requires |ws| == |es| + 1 && i < |es|
    ensures CutOffBefore(ws, es, i + 1, t) <==> CutOffBefore(ws, es, i, t) || CutsOff(ws[i], es[i], t)
  {
  }

  /** An acquisition that fails at once still goes through a future of its own. */
  lemma ArrivalEnds(w: World, r: Request)
    requires Core(w) && r.Acquire? && |Begin(w, r).tasks| == |w.tasks| + 1
    ensures var pc := Begin(w, r).tasks[|w.tasks|].pc; pc.Done? ==> pc.via.Some?
  {
    if KeyFor(r) !in w.book.inflight {
      var v, t, l := LineUp(w, r), |w.tasks|, LockFor(w, KeyFor(r));
      LineUpKeeps(w, r);
      if v.locks[l].owner == None && !Queued(v, l, t) { TakeLockEnds(v, t, l); }
    }
  }

  /** What the run so far says of one acquisition. */
  ghost predicate Traced(ws: seq<World>, es: seq<Event>, i: nat, t: nat)
    requires |ws| == |es| + 1 && i < |ws|
  {
    if t < |ws[i].tasks| && ws[i].tasks[t].pc.Done? then ws[i].tasks[t].pc.via == None <==> CutOffBefore(ws, es, i, t)
    else !CutOffBefore(ws, es, i, t)
  }

  lemma TracedStep(ws: seq<World>, es: seq<Event>, p: nat, t: nat)
    requires IsRun(ws, es) && p < |es| && t < |ws[p + 1].tasks| && ws[p + 1].tasks[t].request.Acquire? && Traced(ws, es, p, t)
    ensures Traced(ws, es, p + 1, t)
  {
    RunTables(ws, es, p);
    RunStep(ws, es, p);
    CutOffLater(ws, es, p, t);
    assert Steps(ws[p], es[p], ws[p + 1]);
    if t == |ws[p].tasks| {
      ArrivalEnds(ws[p], es[p].request);
    } else if !ws[p].tasks[t].pc.Done? {
      PositionStep(ws[p], es[p], t);
    }
  }

  lemma {:induction false} TracedRun(ws: seq<World>, es: seq<Event>, i: nat, t: nat)
    requires IsRun(ws, es) && i < |ws| && (t < |ws[i].tasks| ==> ws[i].tasks[t].request.Acquire?)
    ensures Traced(ws, es, i, t)
  {
    if i > 0 {
      var p := i - 1;
      RunTables(ws, es, p);
      TracedRun(ws, es, p, t);
      if t < |ws[i].tasks| { TracedStep(ws, es, p, t); } else { CutOffLater(ws, es, p, t); }
    }
  }

  /** Every acquisition that has returned came back through a future, its own or one it followed, unless it
      was cut off: cancelled while waiting for the lock, or after its future was resolved. */
  lemma ReturnsThroughFuture(ws: seq<World>, es: seq<Event>, i: nat, t: nat)
    requires IsRun(ws, es) && i < |ws| && t < |ws[i].tasks| && ws[i].tasks[t].request.Acquire? && ws[i].tasks[t].pc.Done?
    ensures ws[i].tasks[t].pc.via == None <==> CutOffBefore(ws, es, i, t)
    ensures CutOffBefore(ws, es, i, t) ==> ws[i].tasks[t].pc.outcome == Cancelled
  {
    TracedRun(ws, es, i, t);
    RunInvariant(ws, es, i);
    assert TaskOk(ws[i], t);
  }

  /** A follower follows the same future until it returns, through that future if any. */
  lemma {:induction false} FollowsOn(ws: seq<World>, es: seq<Event>, j: nat, i: nat, t: nat)
    requires IsRun(ws, es) && j <= i < |ws| && t < |ws[j].tasks| && ws[j].tasks[t].pc.Following?
    ensures t < |ws[i].tasks| && ws[i].tasks[t].request.Acquire? && ws[i].tasks[t].request == ws[j].tasks[t].request
    ensures var pc, f := ws[i].tasks[t].pc, ws[j].tasks[t].pc.shared;
            pc == ws[j].tasks[t].pc || (pc.Done? && pc.via in {None, Some(f)})
    decreases i
  {
    RunInvariant(ws, es, j);
    assert TaskOk(ws[j], t);
    if j < i {
      var p := i - 1;
      FollowsOn(ws, es, j, p, t);
      FollowStep(ws, es, p, t);
    }
  }

  lemma FollowStep(ws: seq<World>, es: seq<Event>, p: nat, t: nat)
    requires IsRun(ws, es) && p < |es| && t < |ws[p].tasks| && ws[p].tasks[t].request.Acquire?
    ensures t < |ws[p + 1].tasks| && ws[p + 1].tasks[t].request == ws[p].tasks[t].request
    ensures var was, pc := ws[p].tasks[t].pc, ws[p + 1].tasks[t].pc;
            && (was.Done? ==> pc == was)
            && (was.Following? ==> pc == was || (pc.Done? && pc.via in {None, Some(was.shared)}))
  {
    RunTables(ws, es, p);
    RunStep(ws, es, p);
    assert Steps(ws[p], es[p], ws[p + 1]);
    if !ws[p].tasks[t].pc.Done? { PositionStep(ws[p], es[p], t); }
  }

  /** The leader of `f` was acquiring for `t`'s account and a permutation of its scopes. If the future was
      resolved, leader and follower have ended alike; if it was killed, the follower's outcome is a
      cancellation and the leader's an invalid-state error. */
  ghost predicate Shares(w: World, t: nat, f: nat) {
    && f < |w.futures|
    && var u := w.futures[f].leader;
    && t < |w.tasks| && u < |w.tasks| && w.tasks[t].pc.Done? && w.tasks[t].request.Acquire? && w.tasks[u].request.Acquire?
    && w.tasks[u].request.account == w.tasks[t].request.account
    && multiset(w.tasks[u].request.scopes) == multiset(w.tasks[t].request.scopes)
    && match w.futures[f].state
       case Pending => false
       case Resolved(_) => w.tasks[u].pc == Done(w.tasks[t].pc.outcome, Some(f))
       case Killed => (t != u ==> w.tasks[t].pc.outcome == Cancelled) && (w.tasks[u].pc.Done? ==> w.tasks[u].pc == Done(InvalidState, Some(f)))
  }

  lemma ReturnedShares(w: World, t: nat, f: nat)
    requires Inv(w) && t < |w.tasks| && w.tasks[t].pc.Done? && w.tasks[t].pc.via == Some(f)
    ensures Shares(w, t, f)
  {
    assert TaskOk(w, t);
    var u := w.futures[f].leader;
    assert FutureOk(w, f) && TaskOk(w, u);
    var r, q := w.tasks[t].request, w.tasks[u].request;
    assert w.tasks[u].key == w.tasks[t].key;
    SameKeyIffPermutation(r.account, r.scopes, q.account, q.scopes);
  }

  lemma LeaderIsAnother(ws: seq<World>, es: seq<Event>, j: nat, i: nat, t: nat)
    requires IsRun(ws, es) && j <= i < |ws| && t < |ws[j].tasks| && ws[j].tasks[t].pc.Following?
    ensures var f := ws[j].tasks[t].pc.shared; f < |ws[i].futures| && ws[i].futures[f].leader != t
  {
    RunInvariant(ws, es, j);
    assert TaskOk(ws[j], t);
    FuturesStay(ws, es, j, i, ws[j].tasks[t].pc.shared);
  }

  /** Every call that ever followed a future and has returned shares the leader's outcome, unless it was cut
      off, and then it ends with its cancellation. */
  lemma FollowerSharesOutcome(ws: seq<World>, es: seq<Event>, j: nat, i: nat, t: nat)
    requires IsRun(ws, es) && j <= i < |ws| && t < |ws[j].tasks| && ws[j].tasks[t].pc.Following?
    requires |ws[j].tasks| <= |ws[i].tasks| && ws[i].tasks[t].pc.Done?
    ensures var f, pc := ws[j].tasks[t].pc.shared, ws[i].tasks[t].pc;
            if CutOffBefore(ws, es, i, t) then pc == Done(Cancelled, None)
            else pc.via == Some(f) && Shares(ws[i], t, f) && ws[i].futures[f].leader != t
  {
    LeaderIsAnother(ws, es, j, i, t);
    FollowsOn(ws, es, j, i, t);
    ReturnsThroughFuture(ws, es, i, t);
    RunInvariant(ws, es, i);
    if ws[i].tasks[t].pc.via.Some? { ReturnedShares(ws[i], t, ws[i].tasks[t].pc.via.value); }
  }
}
