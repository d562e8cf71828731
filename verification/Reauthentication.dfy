/** Interactive re-authentication of an account that is there already. The browser round trip takes as
    long as the user does, and other calls may reach the account's state meanwhile. */
module Reauthentication {
  import opened Wrappers
  import opened AuthErrors
  import opened AuthState

  /** How the round trip ends; `Broken` is any exception but the user's cancellation, a cancelled task
      included. */
  datatype Flow =
    | Abandoned
    | Denied(result: MsalResult, consentUrl: Option<string>)
    | Granted(hint: Option<string>)
    | Broken

  datatype Ending = Completed | SignInCancelled | Raises(error: AuthError) | Propagates

  /** What the end of the round trip does to the account it finds. */
  function Conclude(a: Account, previous: State, flow: Flow): (Account, Ending) {
    match flow
    case Abandoned => (Restore(a, previous), SignInCancelled)
    case Denied(result, consentUrl) =>
      var e := Classify(result, consentUrl);
      var b := Apply(a, ApplyError(e));
      (b, Raises(RaiseFor(b.state, e)))
    case Granted(hint) => (Apply(a, MarkActive(hint)), Completed)
    case Broken => (a, Propagates)
  }

  /** The account as the end of the round trip finds it. */
  function Meanwhile(a: Account, calls: seq<Call>): Account {
    Run(Apply(a, BeginInteractive), calls)
  }

  /** A whole re-authentication, `calls` arriving while the browser is open. */
  function Reauth(a: Account, calls: seq<Call>, flow: Flow): (Account, Ending) {
    if a.state == Blocked then (a, Raises(DeviceBlocked)) else Conclude(Meanwhile(a, calls), a.state, flow)
  }

  /** Up to the round trip, which is asked for the pending claims as they are; `previous` is `None` if
      the account is blocked and the call is refused. */
  method BeginReauth(account: AccountAuthState) returns (previous: Option<State>, claims: Option<string>)
    modifies account
    ensures previous.Some? ==> claims == old(account.pendingClaims)
    ensures old(account.state) == Blocked ==> previous == None && account.View() == old(account.View()) && account.sent == old(account.sent)
    ensures old(account.state) != Blocked ==>
              && previous == Some(old(account.state))
              && account.View() == Apply(old(account.View()), BeginInteractive) && account.sent == old(account.sent) + [InteractiveAuth]
  {
    if account.state == Blocked {
      return None, None;
    }
    previous := Some(account.state);
    var refused := account.BeginInteractive();
    claims := account.pendingClaims;
  }

  /** After the round trip. The restoring write goes past the listeners. */
  method EndReauth(account: AccountAuthState, previous: State, flow: Flow) returns (ending: Ending)
    modifies account
    ensures (account.View(), ending) == Conclude(old(account.View()), previous, flow)
    ensures flow.Abandoned? || flow.Broken? ==> account.sent == old(account.sent)
  {
    match flow {
      case Abandoned =>
        account.state := previous;
        return SignInCancelled;
      case Denied(result, consentUrl) =>
        var e := Classify(result, consentUrl);
        var newState := account.ApplyError(e);
        return Raises(RaiseFor(newState, e));
      case Granted(hint) =>
        account.MarkActive(hint);
        return Completed;
      case Broken =>
        return Propagates;
    }
  }

  /** How each ending leaves the account it finds, and what the caller gets. A denial changes what the failed
      result says and raises for it; a success clears everything unless the account has been blocked;
      giving up puts the old state back and touches nothing else; any other exception leaves all as it is. */
  lemma EndsWith(a: Account, calls: seq<Call>, flow: Flow)
    requires a.state != Blocked
    ensures var (b, ending) := Reauth(a, calls, flow);
            var m := Meanwhile(a, calls);
            match flow
            case Abandoned => ending == SignInCancelled && b == m.(state := a.state)
            case Broken => ending == Propagates && b == m
            case Granted(hint) =>
              ending == Completed
              && b == if m.state == Blocked then m else Account(Active, None, None, 0, if hint.Some? then hint else m.loginHint)
            case Denied(result, consentUrl) => ending.Raises? && FailsWith(m, result, consentUrl, b, ending.error)
  {
    if flow.Denied? { FailureTable(Meanwhile(a, calls), flow.result, flow.consentUrl); }
  }

  /** A blocked account is refused without a trace, and any other is interactive while the browser is open. */
  lemma BeginsWith(a: Account, flow: Flow)
    ensures a.state == Blocked ==> Reauth(a, [], flow) == (a, Raises(DeviceBlocked))
    ensures a.state != Blocked ==> Meanwhile(a, []) == a.(state := InteractiveAuth)
  {
  }

  /** Giving up undoes the attempt: if nothing else happened meanwhile, the account is exactly what it
      was. */
  lemma AbandonedLeavesNoTrace(a: Account)
    ensures a.state != Blocked ==> Reauth(a, [], Abandoned) == (a, SignInCancelled)
  {
    assert Run(Apply(a, BeginInteractive), []) == Apply(a, BeginInteractive);
  }

  /** A re-authentication that completes leaves the account active with nothing pending, exactly unless
      a device error heard while the browser was open has blocked it for good: then the call returns as
      if it had succeeded and the account stays blocked. */
  lemma CompletedIsActiveIff(a: Account, calls: seq<Call>, hint: Option<string>)
    requires a.state != Blocked
    ensures var (b, ending) := Reauth(a, calls, Granted(hint));
            && ending == Completed
            && (b.state == Active <==> !DeviceErrorSinceSignOut(calls))
            && (b.state == Active ==> b.pendingClaims == None && b.pendingConsentUrl == None && b.retries == 0)
            && (b.state != Active ==> b == Meanwhile(a, calls) && b.state == Blocked)
  {
    BlockedIffDeviceErrorSinceSignOut(Apply(a, BeginInteractive), calls);
  }

  /** A denied one raises what the account's new state calls for, whatever reached the account
      meanwhile. */
  lemma DeniedMatchesState(a: Account, calls: seq<Call>, result: MsalResult, consentUrl: Option<string>)
    requires a.state != Blocked
    ensures var (b, ending) := Reauth(a, calls, Denied(result, consentUrl));
            && ending.Raises? && ending.error != FellThrough
            && (ending.error == DeviceBlocked <==> b.state == Blocked && !ending.error.ConsentNeeded?)
            && (ending.error == AuthError.Reauth <==> b.state == ReauthRequired && !ending.error.ConsentNeeded?)
            && (ending.error.ClaimsNeeded? ==> b.state == InteractiveAuth && b.pendingClaims == ending.error.claims)
  {
    ExceptionMatchesState(Meanwhile(a, calls), result, consentUrl);
  }

  /** The account was opened for the browser and hears `calls`: what they leave it in. */
  lemma StateFound(a: Account, calls: seq<Call>)
    requires a.state != Blocked
    ensures var m, o := Meanwhile(a, calls), Apply(a, BeginInteractive);
            && (m.state == Blocked <==> DeviceErrorSinceSignOut(calls))
            && (m.state != Blocked ==> m.state == LastWord(o, calls) && m.retries == ChallengesHeard(o, calls))
  {
    StateReadOff(Apply(a, BeginInteractive), calls);
    BlockedIffDeviceErrorSinceSignOut(Apply(a, BeginInteractive), calls);
  }

  /** A blocked account is to stay blocked until it is signed out. Giving up a re-authentication breaks
      that exactly if a device error blocked the account while the browser was open. */
  lemma GivingUpUnblocksIff(a: Account, calls: seq<Call>)
    requires a.state != Blocked
    ensures Meanwhile(a, calls).state == Blocked && Reauth(a, calls, Abandoned).0.state != Blocked <==> DeviceErrorSinceSignOut(calls)
  {
    BlockedIffDeviceErrorSinceSignOut(Apply(a, BeginInteractive), calls);
  }

  /** Such a run: an active account hears of its blocked device while the browser is open, the user gives
      up, and the account is exactly what it was, although its listeners were last told otherwise. */
  lemma GivingUpUnblocks(e: Classified)
    requires e.category == DeviceCaBlocked
    ensures var a := Account(Active, None, None, 0, None);
            && Meanwhile(a, [ApplyError(e)]).state == Blocked
            && Reauth(a, [ApplyError(e)], Abandoned) == (a, SignInCancelled)
            && Notices(a, [BeginInteractive, ApplyError(e)]) == [InteractiveAuth, Blocked]
  {
    var a := Account(Active, None, None, 0, None);
    var calls, trace := [ApplyError(e)], [BeginInteractive, ApplyError(e)];
    assert calls[..0] == [] && trace[..1] == [BeginInteractive] && trace[..1][..0] == [];
    assert Run(Apply(a, BeginInteractive), calls[..0]) == Apply(a, BeginInteractive);
    assert Run(a, trace[..1]) == Apply(a, BeginInteractive);
    assert Notices(a, trace[..1]) == [InteractiveAuth];
  }

  /** Listeners are to know the state an account is in. After giving up, what they were last told is false
      exactly if the calls heard while the browser was open leave the account in another state than
      the one it had before: blocked, or not that of their last word. With no calls at all they
      are left with the word that a sign-in is going on. */
  lemma GivingUpMisinformsIff(a: Account, calls: seq<Call>)
    requires a.state != Blocked
    ensures var told := Notices(a, [BeginInteractive] + calls);
            && told != []
            && (told[|told| - 1] != Reauth(a, calls, Abandoned).0.state <==>
                  DeviceErrorSinceSignOut(calls) || LastWord(Apply(a, BeginInteractive), calls) != a.state)
  {
    StateFound(a, calls);
    RunAppend(a, [BeginInteractive], calls);
    NoticesNeverDrift(a, [BeginInteractive] + calls);
    FirstNotice(a, calls);
    assert Run(a, [BeginInteractive]) == Apply(a, BeginInteractive);
  }

  /** The calls heard while the browser was open leave the account saying that a sign-in is going on. */
  ghost predicate LeaveOpen(a: Account, calls: seq<Call>) {
    !DeviceErrorSinceSignOut(calls) && LastWord(Apply(a, BeginInteractive), calls) == InteractiveAuth
  }

  /** When a re-authentication is over and the account still says that one is going on: after any other
      exception if the calls heard meanwhile leave it so, after giving up an attempt that itself began
      there, and after a denial that asks for another attempt (claims, while fewer than three
      challenges were heard) or that leaves the state alone (consent). */
  lemma StuckIff(a: Account, calls: seq<Call>, flow: Flow)
    requires a.state != Blocked
    ensures Reauth(a, calls, flow).0.state == InteractiveAuth <==>
              match flow
              case Broken => LeaveOpen(a, calls)
              case Abandoned => a.state == InteractiveAuth
              case Granted(_) => false
              case Denied(result, consentUrl) =>
                match Classify(result, consentUrl).category
                case ConsentRequired => LeaveOpen(a, calls)
                case ClaimsChallenge =>
                  !DeviceErrorSinceSignOut(calls) && ChallengesHeard(Apply(a, BeginInteractive), calls) < MAX_CLAIMS_CHALLENGE_RETRIES
                case _ => false
  {
    StateFound(a, calls);
  }
}
