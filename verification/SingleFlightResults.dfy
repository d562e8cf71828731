/** What each operation comes to, reply by reply: how a call begins, what it ends with and what it leaves in
    the account's state object, for objects that were blocked meanwhile too. */
module SingleFlightResults {
  import opened Wrappers
  import opened Scopes
  import opened Accounts
  import opened SingleFlight
  import opened SingleFlightInvariant
  import opened SingleFlightRuns
  import opened SingleFlightAccounts
  import opened SingleFlightOutcomes
  import AuthErrors
  import AuthState
  import Reauthentication

  // ---- leaders -------------------------------------------------------------------------------------------

  /** Task `t` ends with that outcome, or with an invalid-state error if its future was killed, and leaves that
      view in the account object it began with. Nothing else that is kept about accounts changes. */
  ghost predicate Settles(w: World, v: World, t: nat, outcome: Outcome, view: AuthState.Account) {
    && t < |w.tasks| == |v.tasks| && Leading(w, t)
    && var lead := w.tasks[t].pc.job;
    && lead.subject < |w.accounts| && lead.future < |w.futures|
    && v.tasks[t].pc == Done(if w.futures[lead.future].state.Killed? then InvalidState else outcome, Some(lead.future))
    && v.accounts == w.accounts[lead.subject := AccountCell(w.accounts[lead.subject].account, view)]
    && v.book.objects == w.book.objects && v.book.active == w.book.active
  }

  lemma FinishSettles(w: World, t: nat, call: Option<AuthState.Call>, outcome: Outcome)
    requires Core(w) && Busy(w, t) && w.tasks[t].pc.job.Lead?
    ensures var o := w.tasks[t].pc.job.subject;
            && o < |w.accounts| && Tell(w, t, call).tasks == w.tasks && AboutToFinish(Tell(w, t, call), t)
            && Settles(w, FinishLead(Tell(w, t, call), t, outcome), t, outcome,
                       if call.Some? then AuthState.Apply(w.accounts[o].view, call.value) else w.accounts[o].view)
  {
    assert TaskOk(w, t);
    TellKeeps(w, t, call);
  }

  /** A failed lookup, a lookup that found no account, and a cancellation. */
  lemma UnansweredSettles(w: World, e: Event, t: nat)
    requires Inv(w) && Enabled(w, e) && Leading(w, t) && e in {Found(t, false), FindFails(t), Cancel(t)}
    ensures w.tasks[t].pc.job.subject < |w.accounts|
    ensures var a := w.accounts[w.tasks[t].pc.job.subject].view;
            match e
            case Found(_, _) =>
              Settles(w, Next(w, e), t, Raised(AuthState.Reauth),
                      if a.state == AuthState.Blocked then a else AuthState.Account(AuthState.ReauthRequired, None, None, 0, a.loginHint))
            case FindFails(_) => Settles(w, Next(w, e), t, Raised(AuthState.Unclassified), a)
            case _ => Settles(w, Next(w, e), t, Cancelled, a)
  {
    assert TaskOk(w, t);
    match e
    case Found(_, _) => AbsentSettles(w, t);
    case FindFails(_) => FinishSettles(w, t, None, Raised(AuthState.Unclassified));
    case _ => LetGoSettles(w, t);
  }

  lemma AbsentSettles(w: World, t: nat)
    requires Inv(w) && Enabled(w, Found(t, false)) && Leading(w, t)
    ensures w.tasks[t].pc.job.subject < |w.accounts|
    ensures var a := w.accounts[w.tasks[t].pc.job.subject].view;
            Settles(w, AfterFind(w, t, false), t, Raised(AuthState.Reauth),
                    if a.state == AuthState.Blocked then a else AuthState.Account(AuthState.ReauthRequired, None, None, 0, a.loginHint))
  {
    assert TaskOk(w, t);
    FinishSettles(w, t, Some(NOT_IN_CACHE), Raised(AuthState.Reauth));
  }

  lemma LetGoSettles(w: World, t: nat)
    requires Inv(w) && Leading(w, t)
    ensures w.tasks[t].pc.job.subject < |w.accounts|
    ensures Settles(w, OnCancel(w, t), t, Cancelled, w.accounts[w.tasks[t].pc.job.subject].view)
  {
    assert TaskOk(w, t);
    LetGoKeeps(w, t);
    FinishSettles(LetGo(w, t), t, None, Cancelled);
  }

  /** What the four kinds of reply make of a silent acquisition on the object it began with. */
  ghost predicate Answers(w: World, v: World, t: nat, reply: Reply, a: AuthState.Account) {
    match reply
    case Success(token) =>
      Settles(w, v, t, Token(token), if a.state == AuthState.Blocked then a else AuthState.Account(AuthState.Active, None, None, 0, a.loginHint))
    case NetworkDown =>
      Settles(w, v, t, Raised(AuthState.OfflineNoToken), if a.state == AuthState.Blocked then a else a.(state := AuthState.Offline))
    case Crash => Settles(w, v, t, Raised(AuthState.Unclassified), a)
    case Failure(result) => exists b, x :: AuthState.FailsWith(a, result, None, b, x) && Settles(w, v, t, Raised(x), b)
  }

  lemma AnswerSettles(w: World, t: nat, reply: Reply)
    requires Inv(w) && Enabled(w, Answer(t, reply)) && Leading(w, t)
    ensures w.tasks[t].pc.job.subject < |w.accounts|
    ensures Answers(w, Next(w, Answer(t, reply)), t, reply, w.accounts[w.tasks[t].pc.job.subject].view)
  {
    assert TaskOk(w, t);
    WrittenIsCore(w, t);
    var w0, o, v := Written(w, t), w.tasks[t].pc.job.subject, Next(w, Answer(t, reply));
    var a := w.accounts[o].view;
    FinishSettles(w0, t, SilentCall(reply), SilentOutcome(a, reply));
    if reply.Failure? {
      var e := AuthErrors.Classify(reply.result, None);
      AuthState.FailureTable(a, reply.result, None);
      var b := AuthState.Apply(a, AuthState.ApplyError(e));
      assert AuthState.FailsWith(a, reply.result, None, b, AuthState.RaiseFor(b.state, e));
      assert Settles(w, v, t, Raised(AuthState.RaiseFor(b.state, e)), b);
    }
  }

  /** The end of every acquisition that leads, over every run. Unless its future was killed: a success gives
      the caller that token and makes the object active with nothing pending; without a network it is
      offline; a failed result means what its categories call for; an exception that is not caught, and
      a cancellation, leave the object alone; and an account that is not in the cache needs a new
      sign-in. An object blocked meanwhile stays as it is, whatever the reply. */
  lemma LeaderEndsWith(ws: seq<World>, es: seq<Event>, i: nat, t: nat)
    requires IsRun(ws, es) && i < |es| && Leading(ws[i], t)
    requires |ws[i].tasks| <= |ws[i + 1].tasks| && ws[i + 1].tasks[t].pc.Done?
    ensures var lead := ws[i].tasks[t].pc.job;
            && lead.subject < |ws[i].accounts| && lead.future < |ws[i].futures|
            && (ws[i].futures[lead.future].state.Killed? <==> exists j :: 0 <= j < i && KillsFuture(ws[j], es[j], lead.future))
    ensures var w, v, a := ws[i], ws[i + 1], ws[i].accounts[ws[i].tasks[t].pc.job.subject].view;
            match es[i]
            case Answer(u, reply) => u == t && Answers(w, v, t, reply, a)
            case Found(u, present) =>
              u == t && !present
              && Settles(w, v, t, Raised(AuthState.Reauth),
                         if a.state == AuthState.Blocked then a else AuthState.Account(AuthState.ReauthRequired, None, None, 0, a.loginHint))
            case FindFails(u) => u == t && Settles(w, v, t, Raised(AuthState.Unclassified), a)
            case Cancel(u) => u == t && Settles(w, v, t, Cancelled, a)
            case _ => false
  {
    RunStep(ws, es, i);
    EndingEvent(ws[i], es[i], ws[i + 1], t);
    assert Steps(ws[i], es[i], ws[i + 1]);
    assert TaskOk(ws[i], t);
    KilledIffFollowerCancelled(ws, es, i, ws[i].tasks[t].pc.job.future);
    if es[i].Answer? { AnswerSettles(ws[i], t, es[i].reply); } else { UnansweredSettles(ws[i], es[i], t); }
  }

  // ---- how an acquisition begins --------------------------------------------------------------------------

  /** From holding its key's lock `l`: the call follows what is in flight, is refused at once for an account
      that is unknown or blocked, or leads with a future of its own on the account's present object,
      which says so if it was active or offline. */
  ghost predicate StartsUnder(w: World, v: World, t: nat, l: nat) {
    && t < |w.tasks| == |v.tasks| && w.tasks[t].request.Acquire?
    && var a, k, pc := w.tasks[t].request.account, w.tasks[t].key, v.tasks[t].pc;
    if k in w.book.inflight then
      pc == Following(w.book.inflight[k], Some(l)) && v.book == w.book && v.accounts == w.accounts
    else if a !in w.book.objects then
      pc.Done? && pc.outcome == Raised(AuthState.AccountUnknown) && v.book == w.book && v.accounts == w.accounts
    else
      && w.book.objects[a] < |w.accounts|
      && var o, view := w.book.objects[a], w.accounts[w.book.objects[a]].view;
      if view.state == AuthState.Blocked then
        pc.Done? && pc.outcome == Raised(AuthState.DeviceBlocked) && v.book == w.book && v.accounts == w.accounts
      else
        && pc == Finding(Lead(l, |w.futures|, o)) && v.futures == w.futures + [FutureCell(k, t, Pending)]
        && v.book == w.book.(inflight := w.book.inflight[k := |w.futures|])
        && v.accounts == w.accounts[o := AccountCell(w.accounts[o].account,
             if view.state in {AuthState.Active, AuthState.Offline} then view.(state := AuthState.SilentRefresh) else view)]
  }

  lemma UnderLockStarts(w: World, t: nat, l: nat)
    requires t < |w.tasks| && w.tasks[t].request.Acquire? && l < |w.locks|
    requires forall a :: a in w.book.objects ==> w.book.objects[a] < |w.accounts|
    ensures StartsUnder(w, UnderLock(w, t, l), t, l)
  {
  }

  /** The world once a call that is not going to follow anything has asked for its key's lock `l`. */
  ghost predicate AsksForLock(w: World, w1: World, r: Request, l: nat) {
    && w1.tasks == w.tasks + [Task(r, KeyFor(r), WaitingForLock(l))]
    && (if KeyFor(r) in w.book.locks then l == w.book.locks[KeyFor(r)] && w1.locks == w.locks
        else l == |w.locks| && w1.locks == w.locks + [LockCell(KeyFor(r), None)])
    && w1.book == w.book.(locks := w.book.locks[KeyFor(r) := l]) && w1.accounts == w.accounts && w1.futures == w.futures
  }

  lemma LineUpAsks(w: World, r: Request)
    ensures AsksForLock(w, LineUp(w, r), r, LockFor(w, KeyFor(r)))
  {
    if KeyFor(r) in w.book.locks { assert w.book.locks[KeyFor(r) := w.book.locks[KeyFor(r)]] == w.book.locks; }
  }

  /** An arriving acquisition follows what is in flight for its key, or asks for the key's one lock, made on
      first use, and goes on at once if it is free and nobody is waiting for it. */
  lemma AcquisitionBegins(ws: seq<World>, es: seq<Event>, i: nat, r: Request)
    requires IsRun(ws, es) && i < |es| && es[i] == Arrive(r) && r.Acquire?
    ensures var w, v, k := ws[i], ws[i + 1], KeyOf(r.account, r.scopes);
            if k in w.book.inflight then
              v.tasks == w.tasks + [Task(r, k, Following(w.book.inflight[k], None))] && v.book == w.book && v.accounts == w.accounts
            else
              exists w1, l: nat :: AsksForLock(w, w1, r, l) && l < |w1.locks|
                && if w1.locks[l].owner == None && !Queued(w1, l, |w.tasks|) then StartsUnder(w1, v, |w.tasks|, l) else v == w1
  {
    assert Steps(ws[i], es[i], ws[i + 1]);
    var w, k := ws[i], KeyFor(r);
    if k !in w.book.inflight {
      var w1, l, t := LineUp(w, r), LockFor(w, k), |w.tasks|;
      LineUpAsks(w, r);
      LineUpKeeps(w, r);
      if w1.locks[l].owner == None && !Queued(w1, l, t) { UnderLockStarts(w1, t, l); }
      assert AsksForLock(w, w1, r, l);
    }
  }

  /** So does one that gets the lock it was waiting for. */
  lemma LockHolderBegins(ws: seq<World>, es: seq<Event>, i: nat, t: nat)
    requires IsRun(ws, es) && i < |es| && es[i] == TakeLock(t)
    ensures t < |ws[i].tasks| && ws[i].tasks[t].pc.WaitingForLock? && StartsUnder(ws[i], ws[i + 1], t, ws[i].tasks[t].pc.awaited)
  {
    assert Steps(ws[i], es[i], ws[i + 1]);
    assert TaskOk(ws[i], t);
    UnderLockStarts(ws[i], t, ws[i].tasks[t].pc.awaited);
  }

  // ---- the other operations -------------------------------------------------------------------------------

  /** Task `t` ends so, and nothing that is kept about accounts changes. */
  ghost predicate EndsBare(w: World, v: World, t: nat, outcome: Outcome) {
    t < |w.tasks| == |v.tasks| && v.tasks[t].pc == Done(outcome, None) && v.book == w.book && v.accounts == w.accounts
  }

  /** The end of every sign-out, over every run: it finishes, and removes the account, once MSAL has removed it
      or did not know it; an exception or a cancellation before that leaves the account as it is. */
  lemma SignOutEndsWith(ws: seq<World>, es: seq<Event>, i: nat, t: nat, a: string)
    requires IsRun(ws, es) && i < |es|
    requires t < |ws[i].tasks| <= |ws[i + 1].tasks| && ws[i].tasks[t].request == Request.SignOut(a)
    requires !ws[i].tasks[t].pc.Done? && ws[i + 1].tasks[t].pc.Done?
    ensures var w, v := ws[i], ws[i + 1];
            match es[i]
            case Found(u, present) => u == t && !present && v.tasks[t].pc == Done(Finished, None) && SignedOut(w, v, a)
            case Answer(u, Success(_)) => u == t && v.tasks[t].pc == Done(Finished, None) && SignedOut(w, v, a)
            case Answer(u, _) => u == t && EndsBare(w, v, t, Raised(AuthState.Unclassified))
            case FindFails(u) => u == t && EndsBare(w, v, t, Raised(AuthState.Unclassified))
            case Cancel(u) => u == t && EndsBare(w, v, t, Cancelled)
            case _ => false
  {
    RunStep(ws, es, i);
    MoverIs(ws[i], es[i], ws[i + 1], t);
    assert Steps(ws[i], es[i], ws[i + 1]);
    SignOutStep(ws[i], es[i], t, a);
  }

  lemma SignOutStep(w: World, e: Event, t: nat, a: string)
    requires Inv(w) && Enabled(w, e) && t < |w.tasks| && w.tasks[t].request == Request.SignOut(a) && !w.tasks[t].pc.Done?
    requires !e.Arrive? && !e.ThreadEnds? && !e.SwitchTo? && !e.StartWork? && e.task == t
    requires t < |Next(w, e).tasks| && Next(w, e).tasks[t].pc.Done?
    ensures var v := Next(w, e);
            match e
            case Found(_, present) => !present && v.tasks[t].pc == Done(Finished, None) && SignedOut(w, v, a)
            case Answer(_, Success(_)) => v.tasks[t].pc == Done(Finished, None) && SignedOut(w, v, a)
            case Answer(_, _) => EndsBare(w, v, t, Raised(AuthState.Unclassified))
            case FindFails(_) => EndsBare(w, v, t, Raised(AuthState.Unclassified))
            case Cancel(_) => EndsBare(w, v, t, Cancelled)
            case _ => false
  {
    assert TaskOk(w, t);
    if e.Found? || (e.Answer? && e.reply.Success?) { FinishedSignOut(w, e, t, a); }
  }

  /** The account is there with a new object that says so; every other account keeps its own. */
  ghost predicate SignedIn(w: World, v: World, a: string, hint: Option<string>) {
    && v.accounts == w.accounts + [AccountCell(a, AuthState.Account(AuthState.Active, None, None, 0, hint))]
    && v.book.objects == w.book.objects[a := |w.accounts|]
    && v.book.order == (if a in w.book.objects then w.book.order else w.book.order + [a])
    && v.book.locks == w.book.locks && v.book.inflight == w.book.inflight
  }

  /** The end of every sign-in, over every run: a granted one brings a new active object; a refused one raises
      what the failed result says, and nothing else ever touches the accounts. */
  lemma SignInEndsWith(ws: seq<World>, es: seq<Event>, i: nat, t: nat, a: string, hint: Option<string>, consentUrl: Option<string>)
    requires IsRun(ws, es) && i < |es|
    requires t < |ws[i].tasks| <= |ws[i + 1].tasks| && ws[i].tasks[t].request == AddAccount(a, hint, consentUrl)
    requires !ws[i].tasks[t].pc.Done? && ws[i + 1].tasks[t].pc.Done?
    ensures var w, v := ws[i], ws[i + 1];
            match es[i]
            case Answer(u, Success(_)) => u == t && v.tasks[t].pc == Done(Finished, None) && SignedIn(w, v, a, hint)
            case Answer(u, Failure(r)) =>
              u == t
              && EndsBare(w, v, t, Raised(
                   if AuthErrors.BlamesDevice(r) then AuthState.DeviceBlocked
                   else if AuthErrors.AsksConsent(r) then AuthState.ConsentNeeded(consentUrl)
                   else if AuthErrors.HasClaims(r) then AuthState.ClaimsNeeded(r.claims)
                   else if r.error == Some("invalid_grant") then AuthState.SignInFailed(AuthErrors.InvalidGrant)
                   else AuthState.SignInFailed(AuthErrors.Unknown)))
            case Answer(u, _) => u == t && EndsBare(w, v, t, Raised(AuthState.Unclassified))
            case Cancel(u) => u == t && EndsBare(w, v, t, Cancelled)
            case _ => false
  {
    RunStep(ws, es, i);
    MoverIs(ws[i], es[i], ws[i + 1], t);
    assert Steps(ws[i], es[i], ws[i + 1]);
    SignInStep(ws[i], es[i], t, a, hint, consentUrl);
  }

  lemma SignInStep(w: World, e: Event, t: nat, a: string, hint: Option<string>, consentUrl: Option<string>)
    requires Inv(w) && Enabled(w, e) && t < |w.tasks| && w.tasks[t].request == AddAccount(a, hint, consentUrl) && !w.tasks[t].pc.Done?
    requires !e.Arrive? && !e.ThreadEnds? && !e.SwitchTo? && !e.StartWork? && e.task == t
    requires t < |Next(w, e).tasks| && Next(w, e).tasks[t].pc.Done?
    ensures var v := Next(w, e);
            match e
            case Answer(_, Success(_)) => v.tasks[t].pc == Done(Finished, None) && SignedIn(w, v, a, hint)
            case Answer(_, Failure(r)) => EndsBare(w, v, t, Raised(AuthState.RaiseForSignIn(AuthErrors.Classify(r, consentUrl))))
            case Answer(_, _) => EndsBare(w, v, t, Raised(AuthState.Unclassified))
            case Cancel(_) => EndsBare(w, v, t, Cancelled)
            case _ => false
    ensures e.Answer? && e.reply.Failure? ==>
              AuthState.RaiseForSignIn(AuthErrors.Classify(e.reply.result, consentUrl)) ==
              (var r := e.reply.result;
               if AuthErrors.BlamesDevice(r) then AuthState.DeviceBlocked
               else if AuthErrors.AsksConsent(r) then AuthState.ConsentNeeded(consentUrl)
               else if AuthErrors.HasClaims(r) then AuthState.ClaimsNeeded(r.claims)
               else if r.error == Some("invalid_grant") then AuthState.SignInFailed(AuthErrors.InvalidGrant)
               else AuthState.SignInFailed(AuthErrors.Unknown))
  {
    assert TaskOk(w, t);
    if e.Answer? && e.reply.Failure? { AuthState.SignInFailureTable(e.reply.result, consentUrl); }
  }

  /** A re-authentication's task, its account object and the state it is to restore. */
  ghost predicate Renewing(w: World, t: nat, o: nat, previous: AuthState.State) {
    Busy(w, t) && w.tasks[t].request.Reauth? && w.tasks[t].pc.job == Renewal(o, previous) && o < |w.accounts|
  }

  /** It ends so and leaves that view in its object. */
  ghost predicate RenewsTo(w: World, v: World, t: nat, o: nat, outcome: Outcome, view: AuthState.Account) {
    && t < |w.tasks| == |v.tasks| && v.tasks[t].pc == Done(outcome, None) && v.book == w.book
    && o < |w.accounts| && v.accounts == w.accounts[o := AccountCell(w.accounts[o].account, view)]
  }

  /** The end of every re-authentication, over every run. */
  lemma RenewalEndsWith(ws: seq<World>, es: seq<Event>, i: nat, t: nat, o: nat, previous: AuthState.State)
    requires IsRun(ws, es) && i < |es| && Renewing(ws[i], t, o, previous)
    requires |ws[i].tasks| <= |ws[i + 1].tasks| && ws[i + 1].tasks[t].pc.Done?
    ensures var w, v, r, a := ws[i], ws[i + 1], ws[i].tasks[t].request, ws[i].accounts[o].view;
            match es[i]
            case Found(u, present) => u == t && !present && RenewsTo(w, v, t, o, GivenUp, a.(state := previous))
            case Answer(u, Success(_)) =>
              u == t
              && RenewsTo(w, v, t, o, Finished,
                          if a.state == AuthState.Blocked then a
                          else AuthState.Account(AuthState.Active, None, None, 0, if r.hint.Some? then r.hint else a.loginHint))
            case Answer(u, Failure(result)) =>
              u == t && exists b, x :: AuthState.FailsWith(a, result, r.consentUrl, b, x) && RenewsTo(w, v, t, o, Raised(x), b)
            case Answer(u, _) => u == t && RenewsTo(w, v, t, o, Raised(AuthState.Unclassified), a)
            case FindFails(u) => u == t && RenewsTo(w, v, t, o, Raised(AuthState.Unclassified), a)
            case Cancel(u) => u == t && RenewsTo(w, v, t, o, Cancelled, a)
            case _ => false
  {
    RunStep(ws, es, i);
    MoverIs(ws[i], es[i], ws[i + 1], t);
    assert Steps(ws[i], es[i], ws[i + 1]);
    assert TaskOk(ws[i], t);
    if es[i].Answer? { RenewalAnswers(ws[i], t, es[i].reply, o, previous); }
  }

  lemma RenewalAnswers(w: World, t: nat, reply: Reply, o: nat, previous: AuthState.State)
    requires Inv(w) && Enabled(w, Answer(t, reply)) && Renewing(w, t, o, previous)
    ensures var v, r, a := Next(w, Answer(t, reply)), w.tasks[t].request, w.accounts[o].view;
            match reply
            case Success(_) =>
              RenewsTo(w, v, t, o, Finished,
                       if a.state == AuthState.Blocked then a
                       else AuthState.Account(AuthState.Active, None, None, 0, if r.hint.Some? then r.hint else a.loginHint))
            case Failure(result) =>
              exists b, x :: AuthState.FailsWith(a, result, r.consentUrl, b, x) && RenewsTo(w, v, t, o, Raised(x), b)
            case _ => RenewsTo(w, v, t, o, Raised(AuthState.Unclassified), a)
  {
    WrittenIsCore(w, t);
    assert TaskOk(w, t);
    if reply.Failure? { RenewalDenied(w, t, reply.result, o, previous); }
  }

  lemma RenewalDenied(w: World, t: nat, result: AuthErrors.MsalResult, o: nat, previous: AuthState.State)
    requires Inv(w) && Enabled(w, Answer(t, Failure(result))) && Renewing(w, t, o, previous)
    ensures exists b, x :: AuthState.FailsWith(w.accounts[o].view, result, w.tasks[t].request.consentUrl, b, x)
                           && RenewsTo(w, Next(w, Answer(t, Failure(result))), t, o, Raised(x), b)
  {
    WrittenIsCore(w, t);
    assert TaskOk(w, t);
    var a, url := w.accounts[o].view, w.tasks[t].request.consentUrl;
    var e := AuthErrors.Classify(result, url);
    AuthState.FailureTable(a, result, url);
    var b := AuthState.Apply(a, AuthState.ApplyError(e));
    assert AuthState.FailsWith(a, result, url, b, AuthState.RaiseFor(b.state, e));
    assert RenewsTo(w, Next(w, Answer(t, Failure(result))), t, o, Raised(AuthState.RaiseFor(b.state, e)), b);
  }

  /** How it begins: refused at once for an account that is unknown or blocked, and otherwise with the account's
      present object interactive and the state it had remembered. */
  lemma RenewalBegins(ws: seq<World>, es: seq<Event>, i: nat, r: Request)
    requires IsRun(ws, es) && i < |es| && es[i] == Arrive(r) && r.Reauth?
    ensures var w, v, t := ws[i], ws[i + 1], |ws[i].tasks|;
            && |v.tasks| == t + 1 && v.book == w.book
            && if r.account !in w.book.objects then
                 v.tasks[t].pc == Done(Raised(AuthState.AccountUnknown), None) && v.accounts == w.accounts
               else
                 && w.book.objects[r.account] < |w.accounts|
                 && var o, a := w.book.objects[r.account], w.accounts[w.book.objects[r.account]].view;
                 if a.state == AuthState.Blocked then
                   v.tasks[t].pc == Done(Raised(AuthState.DeviceBlocked), None) && v.accounts == w.accounts
                 else
                   && v.tasks[t].pc == Finding(Renewal(o, a.state))
                   && v.accounts == w.accounts[o := AccountCell(w.accounts[o].account, a.(state := AuthState.InteractiveAuth))]
  {
    assert Steps(ws[i], es[i], ws[i + 1]);
  }

  // ---- between beginning and end ---------------------------------------------------------------------------

  lemma FindJob(w: World, t: nat, present: bool)
    requires Inv(w) && Enabled(w, Found(t, present))
    ensures var v := AfterFind(w, t, present); Busy(v, t) ==> v.tasks[t].pc.job == w.tasks[t].pc.job
  {
    assert TaskOk(w, t);
  }

  lemma FailEnds(w: World, t: nat, outcome: Outcome)
    requires Inv(w) && Busy(w, t)
    ensures TaskOk(w, t) && !Busy(Fail(w, t, outcome), t)
  {
    assert TaskOk(w, t);
  }

  lemma JobStep(w: World, e: Event, v: World, t: nat)
    requires Inv(w) && Enabled(w, e) && v == Next(w, e) && Moves(w, e, v) && Busy(w, t)
    ensures Busy(v, t) ==> v.tasks[t].pc.job == w.tasks[t].pc.job
  {
    if e.Found? && e.task == t {
      FindJob(w, t, e.present);
    } else if e.FindFails? && e.task == t {
      FailEnds(w, t, Raised(AuthState.Unclassified));
    } else if e.Answer? && e.task == t {
      assert Work(v.tasks[t].pc) < 1;
    } else if e.Arrive? {
      assert v.tasks[t] == v.tasks[..|w.tasks|][t];
    }
  }

  /** A task in the middle of its work keeps what it began with: its account object, the state to restore, its
      lock and its future. */
  lemma {:induction false} JobStays(ws: seq<World>, es: seq<Event>, j: nat, i: nat, t: nat)
    requires IsRun(ws, es) && j <= i < |ws| && Busy(ws[j], t) && Busy(ws[i], t) && (forall m :: j <= m <= i ==> Busy(ws[m], t))
    ensures ws[i].tasks[t].pc.job == ws[j].tasks[t].pc.job
    decreases i
  {
    if j < i {
      JobStays(ws, es, j, i - 1, t);
      RunJob(ws, es, i - 1, t);
    }
  }

  lemma RunJob(ws: seq<World>, es: seq<Event>, p: nat, t: nat)
    requires IsRun(ws, es) && p < |es| && Busy(ws[p], t)
    ensures Busy(ws[p + 1], t) ==> ws[p + 1].tasks[t].pc.job == ws[p].tasks[t].pc.job
  {
    RunStep(ws, es, p);
    assert Steps(ws[p], es[p], ws[p + 1]);
    JobStep(ws[p], es[p], ws[p + 1], t);
  }
}
