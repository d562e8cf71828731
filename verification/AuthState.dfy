/** The per-account authentication state machine (auth_state.py), and what it guarantees over every
    sequence of calls. */
module AuthState {
  import opened Wrappers
  import opened AuthErrors

  const MAX_CLAIMS_CHALLENGE_RETRIES := 3

  datatype State = SignedOut | InteractiveAuth | Active | SilentRefresh | ReauthRequired | Offline | Blocked

  datatype Account = Account(state: State, pendingClaims: Option<string>, pendingConsentUrl: Option<string>,
                             retries: nat, loginHint: Option<string>)

  /** The public mutators of the machine. */
  datatype Call =
    | BeginInteractive
    | MarkActive(hint: Option<string>)
    | BeginSilentRefresh
    | ApplyError(error: Classified)
    | MarkOffline
    | SignOut

  function Fresh(hint: Option<string>): Account {
    Account(SignedOut, None, None, 0, hint)
  }

  function OnError(a: Account, e: Classified): Account {
    match e.category
    case InvalidGrant => a.(pendingClaims := None, pendingConsentUrl := None, retries := 0, state := ReauthRequired)
    case Unknown => a.(pendingClaims := None, pendingConsentUrl := None, retries := 0, state := ReauthRequired)
    case ClaimsChallenge =>
      if a.retries + 1 > MAX_CLAIMS_CHALLENGE_RETRIES then
        a.(retries := a.retries + 1, pendingClaims := None, state := ReauthRequired)
      else
        a.(retries := a.retries + 1, pendingClaims := e.claims, state := InteractiveAuth)
    case NetworkError => a.(state := Offline)
    case DeviceCaBlocked => a.(state := Blocked)
    case ConsentRequired => a.(pendingConsentUrl := e.adminConsentUrl)
  }

  /** The account after one call. A blocked account refuses `BeginInteractive` with an error and
      ignores every other call but `SignOut`. */
  function Apply(a: Account, c: Call): Account {
    match c
    case SignOut => Fresh(None)
    case BeginInteractive => if a.state == Blocked then a else a.(state := InteractiveAuth)
    case MarkActive(hint) =>
      if a.state == Blocked then a
      else Account(Active, None, None, 0, if hint.Some? then hint else a.loginHint)
    case BeginSilentRefresh => if a.state == Blocked then a else a.(state := SilentRefresh)
    case ApplyError(e) => if a.state == Blocked then a else OnError(a, e)
    case MarkOffline => if a.state == Blocked then a else a.(state := Offline)
  }

  /** What the call tells the state listeners, if it performs a transition at all. */
  function Notice(a: Account, c: Call): Option<State> {
    if a.state == Blocked && !c.SignOut? then None else Some(Apply(a, c).state)
  }

  /** The object itself: the fields are assigned one by one, in the program's order. `sent` is what
      the transition listener has been told so far. */
  class AccountAuthState {
    var state: State
    var pendingClaims: Option<string>
    var pendingConsentUrl: Option<string>
    var retryCount: nat
    var loginHint: Option<string>
    var sent: seq<State>

    ghost function View(): Account
      reads this
    {
      Account(state, pendingClaims, pendingConsentUrl, retryCount, loginHint)
    }

    constructor (hint: Option<string>)
      ensures View() == Fresh(hint) && sent == []
      ensures state == SignedOut && pendingClaims == None && pendingConsentUrl == None && retryCount == 0 && loginHint == hint
    {
      state, pendingClaims, pendingConsentUrl, retryCount, loginHint, sent := SignedOut, None, None, 0, hint, [];
    }

    method Transition(newState: State)
      modifies this`state, this`sent
      ensures state == newState && sent == old(sent) + [newState]
    {
      state := newState;
      sent := sent + [newState];
    }

    /** `refused` stands for the RuntimeError raised on a blocked account. */
    method BeginInteractive() returns (refused: bool)
      modifies this
      ensures View() == Apply(old(View()), Call.BeginInteractive)
      ensures sent == old(sent) + Said(Notice(old(View()), Call.BeginInteractive))
      ensures refused == (old(state) == Blocked)
    {
      if state == Blocked {
        return true;
      }
      Transition(InteractiveAuth);
      return false;
    }

    method MarkActive(hint: Option<string>)
      modifies this
      ensures View() == Apply(old(View()), Call.MarkActive(hint))
      ensures sent == old(sent) + Said(Notice(old(View()), Call.MarkActive(hint)))
    {
      if state == Blocked {
        return;
      }
      pendingClaims := None;
      pendingConsentUrl := None;
      retryCount := 0;
      if hint.Some? {
        loginHint := hint;
      }
      Transition(Active);
    }

    method BeginSilentRefresh()
      modifies this
      ensures View() == Apply(old(View()), Call.BeginSilentRefresh)
      ensures sent == old(sent) + Said(Notice(old(View()), Call.BeginSilentRefresh))
    {
      if state != Blocked {
        Transition(SilentRefresh);
      }
    }

    method ApplyError(e: Classified) returns (newState: State)
      modifies this
      ensures View() == Apply(old(View()), Call.ApplyError(e)) && newState == state
      ensures sent == old(sent) + Said(Notice(old(View()), Call.ApplyError(e)))
    {
      if state == Blocked {
        return Blocked;
      }
      match e.category {
        case ClaimsChallenge =>
          retryCount := retryCount + 1;
          if retryCount > MAX_CLAIMS_CHALLENGE_RETRIES {
            pendingClaims := None;
            newState := ReauthRequired;
          } else {
            pendingClaims := e.claims;
            newState := InteractiveAuth;
          }
        case NetworkError => newState := Offline;
        case DeviceCaBlocked => newState := Blocked;
        case ConsentRequired =>
          pendingConsentUrl := e.adminConsentUrl;
          newState := state;
        case _ =>
          pendingClaims := None;
          pendingConsentUrl := None;
          retryCount := 0;
          newState := ReauthRequired;
      }
      Transition(newState);
    }

    method MarkOffline()
      modifies this
      ensures View() == Apply(old(View()), Call.MarkOffline)
      ensures sent == old(sent) + Said(Notice(old(View()), Call.MarkOffline))
    {
      if state != Blocked {
        Transition(Offline);
      }
    }

    method SignOut()
      modifies this
      ensures View() == Apply(old(View()), Call.SignOut)
      ensures sent == old(sent) + Said(Notice(old(View()), Call.SignOut))
    {
      pendingClaims := None;
      pendingConsentUrl := None;
      retryCount := 0;
      loginHint := None;
      Transition(SignedOut);
    }
  }

  function Said(n: Option<State>): seq<State> {
    match n case None => [] case Some(s) => [s]
  }

  // ---- whole traces -------------------------------------------------------------------------

  function Run(a: Account, calls: seq<Call>): Account {
    if calls == [] then a else Apply(Run(a, calls[..|calls| - 1]), calls[|calls| - 1])
  }

  /** A claims challenge the machine reacts to: a blocked account hears none. */
  predicate Heeds(a: Account, c: Call) {
    a.state != Blocked && c.ApplyError? && c.error.category == ClaimsChallenge
  }

  /** A call that sets the challenge counter back to zero. */
  predicate Resets(a: Account, c: Call) {
    c.SignOut? || (a.state != Blocked && (c.MarkActive? || (c.ApplyError? && c.error.category in {InvalidGrant, Unknown})))
  }

  /** A challenge answered by sending the user to interactive sign-in. */
  predicate Grants(a: Account, c: Call) {
    Heeds(a, c) && Apply(a, c).state == InteractiveAuth
  }

  function CountGrants(a: Account, calls: seq<Call>): nat {
    if calls == [] then 0 else
      var before := calls[..|calls| - 1];
      CountGrants(a, before) + if Grants(Run(a, before), calls[|calls| - 1]) then 1 else 0
  }

  function CountResets(a: Account, calls: seq<Call>): nat {
    if calls == [] then 0 else
      var before := calls[..|calls| - 1];
      CountResets(a, before) + if Resets(Run(a, before), calls[|calls| - 1]) then 1 else 0
  }

  /** The claims of the challenges heeded since the last reset, oldest first. */
  function Challenges(a: Account, calls: seq<Call>): seq<Option<string>> {
    if calls == [] then [] else
      var before, last := calls[..|calls| - 1], calls[|calls| - 1];
      if Resets(Run(a, before), last) then []
      else if Heeds(Run(a, before), last) then Challenges(a, before) + [last.error.claims]
      else Challenges(a, before)
  }

  /** The counter and the pending claims are a function of the challenges heard since the last
      reset: while there were one to three, the newest challenge's claims are pending, verbatim;
      with none or with more than three, nothing is. In particular the counter keeps growing after
      the bound is passed. */
  lemma {:induction false} ClaimsFollowTheChallenges(hint: Option<string>, calls: seq<Call>)
    ensures var a, heard := Run(Fresh(hint), calls), Challenges(Fresh(hint), calls);
            && a.retries == |heard|
            && a.pendingClaims == if 1 <= |heard| <= MAX_CLAIMS_CHALLENGE_RETRIES then heard[|heard| - 1] else None
  {
    if calls != [] {
      ClaimsFollowTheChallenges(hint, calls[..|calls| - 1]);
    }
  }

  function AtMostMax(n: nat): nat {
    if n < MAX_CLAIMS_CHALLENGE_RETRIES then n else MAX_CLAIMS_CHALLENGE_RETRIES
  }

  /** Without a reset, the number of challenges that end in interactive sign-in is exactly the rise
      of the counter, capped at three, from any state whatever. */
  lemma {:induction false} ChallengeBudget(a: Account, calls: seq<Call>)
    requires CountResets(a, calls) == 0
    ensures CountGrants(a, calls) == AtMostMax(Run(a, calls).retries) - AtMostMax(a.retries)
  {
    if calls != [] {
      ChallengeBudget(a, calls[..|calls| - 1]);
    }
  }

  /** Over a whole trace, resets included: at most three interactive challenges per reset, and what
      is left of the current allowance is three minus the capped counter. */
  lemma {:induction false} ChallengesPerReset(hint: Option<string>, calls: seq<Call>)
    ensures var a := Fresh(hint);
            CountGrants(a, calls) <= MAX_CLAIMS_CHALLENGE_RETRIES * CountResets(a, calls) + AtMostMax(Run(a, calls).retries)
  {
    if calls != [] {
      ChallengesPerReset(hint, calls[..|calls| - 1]);
    }
  }

  /** A blocked account keeps every field until it is signed out, whatever is called in between. */
  lemma {:induction false} BlockedUntilSignOut(a: Account, calls: seq<Call>)
    requires a.state == Blocked && forall c :: c in calls ==> !c.SignOut?
    ensures Run(a, calls) == a
  {
    if calls != [] {
      BlockedUntilSignOut(a, calls[..|calls| - 1]);
      assert calls[|calls| - 1] in calls;
    }
  }

  /** Some call brought a device-state error and no later one is a sign-out. */
  ghost predicate DeviceErrorSinceSignOut(calls: seq<Call>) {
    exists i :: 0 <= i < |calls| && calls[i].ApplyError? && calls[i].error.category == DeviceCaBlocked
                && forall j :: i < j < |calls| ==> !calls[j].SignOut?
  }

  /** An account that was not blocked is blocked after a trace exactly when, since the last sign-out,
      some call found it hearing a device-state error: no other call blocks, and only sign-out
      unblocks. */
  lemma {:induction false} BlockedIffDeviceErrorSinceSignOut(a: Account, calls: seq<Call>)
    requires a.state != Blocked
    ensures Run(a, calls).state == Blocked <==> DeviceErrorSinceSignOut(calls)
  {
    if calls != [] {
      var before, last := calls[..|calls| - 1], calls[|calls| - 1];
      BlockedIffDeviceErrorSinceSignOut(a, before);
      if Run(a, calls).state == Blocked {
        if Run(a, before).state == Blocked {
          var i :| 0 <= i < |before| && before[i].ApplyError? && before[i].error.category == DeviceCaBlocked
                   && forall j :: i < j < |before| ==> !before[j].SignOut?;
          assert calls[i].ApplyError? && forall j :: i < j < |calls| ==> !calls[j].SignOut?;
        } else {
          assert calls[|calls| - 1].ApplyError?;
        }
      }
      if i :| 0 <= i < |calls| && calls[i].ApplyError? && calls[i].error.category == DeviceCaBlocked
              && forall j :: i < j < |calls| ==> !calls[j].SignOut? {
        if i < |before| {
          assert before[i] == calls[i] && forall j :: i < j < |before| ==> !before[j].SignOut?;
        }
      }
    }
  }

  /** The challenge counter, read off the calls alone. */
  function ChallengesHeard(a: Account, calls: seq<Call>): nat {
    if calls == [] then a.retries else
      var before, last := calls[..|calls| - 1], calls[|calls| - 1];
      match last
      case SignOut => 0
      case MarkActive(_) => 0
      case ApplyError(e) =>
        (match e.category
         case ClaimsChallenge => ChallengesHeard(a, before) + 1
         case InvalidGrant => 0
         case Unknown => 0
         case _ => ChallengesHeard(a, before))
      case _ => ChallengesHeard(a, before)
  }

  /** The state named by the last call that names one, as all do but a consent error. */
  function LastWord(a: Account, calls: seq<Call>): State {
    if calls == [] then a.state else
      var before, last := calls[..|calls| - 1], calls[|calls| - 1];
      match last
      case SignOut => SignedOut
      case BeginInteractive => InteractiveAuth
      case MarkActive(_) => Active
      case BeginSilentRefresh => SilentRefresh
      case MarkOffline => Offline
      case ApplyError(e) =>
        match e.category
        case ConsentRequired => LastWord(a, before)
        case ClaimsChallenge => if ChallengesHeard(a, before) < MAX_CLAIMS_CHALLENGE_RETRIES then InteractiveAuth else ReauthRequired
        case NetworkError => Offline
        case DeviceCaBlocked => Blocked
        case _ => ReauthRequired
  }

  /** What state a trace leaves an account in, read off the calls without running them: blocked by a
      device error since the last sign-out, and otherwise what the last call to name a state said.
      Calls ignored while the account was blocked never matter, for a sign-out came after them. */
  lemma {:induction false} StateReadOff(a: Account, calls: seq<Call>)
    requires a.state != Blocked
    ensures var b := Run(a, calls);
            if DeviceErrorSinceSignOut(calls) then b.state == Blocked
            else b.state == LastWord(a, calls) && b.state != Blocked && b.retries == ChallengesHeard(a, calls)
  {
    BlockedIffDeviceErrorSinceSignOut(a, calls);
    if calls != [] {
      BlockedIffDeviceErrorSinceSignOut(a, calls[..|calls| - 1]);
      StateReadOff(a, calls[..|calls| - 1]);
    }
  }

  // The other fields, read off the calls in the same way.

  function HintLeft(a: Account, calls: seq<Call>): Option<string> {
    if calls == [] then a.loginHint else
      var before, last := calls[..|calls| - 1], calls[|calls| - 1];
      match last
      case SignOut => None
      case MarkActive(Some(hint)) => Some(hint)
      case _ => HintLeft(a, before)
  }

  function ConsentUrlLeft(a: Account, calls: seq<Call>): Option<string> {
    if calls == [] then a.pendingConsentUrl else
      var before, last := calls[..|calls| - 1], calls[|calls| - 1];
      match last
      case SignOut => None
      case MarkActive(_) => None
      case ApplyError(e) =>
        (match e.category
         case ConsentRequired => e.adminConsentUrl
         case InvalidGrant => None
         case Unknown => None
         case _ => ConsentUrlLeft(a, before))
      case _ => ConsentUrlLeft(a, before)
  }

  function ClaimsLeft(a: Account, calls: seq<Call>): Option<string> {
    if calls == [] then a.pendingClaims else
      var before, last := calls[..|calls| - 1], calls[|calls| - 1];
      match last
      case SignOut => None
      case MarkActive(_) => None
      case ApplyError(e) =>
        (match e.category
         case ClaimsChallenge => if ChallengesHeard(a, before) < 3 then e.claims else None
         case InvalidGrant => None
         case Unknown => None
         case _ => ClaimsLeft(a, before))
      case _ => ClaimsLeft(a, before)
  }

  /** What a trace leaves pending, as long as no device error has blocked the account since the last
      sign-out: the newest hint a success brought, the newest consent page, the newest claims, each
      unless something that clears it came later. */
  lemma {:induction false} FieldsReadOff(a: Account, calls: seq<Call>)
    requires a.state != Blocked && !DeviceErrorSinceSignOut(calls)
    ensures var b := Run(a, calls);
            b.loginHint == HintLeft(a, calls) && b.pendingConsentUrl == ConsentUrlLeft(a, calls) && b.pendingClaims == ClaimsLeft(a, calls)
  {
    if calls != [] {
      var before, last := calls[..|calls| - 1], calls[|calls| - 1];
      BlockedIffDeviceErrorSinceSignOut(a, before);
      StateReadOff(a, before);
      assert before + [last] == calls;
      if !DeviceErrorSinceSignOut(before) {
        FieldsReadOff(a, before);
      } else if !last.SignOut? {
        StillBlocked(before, last);
      }
    }
  }

  lemma StillBlocked(before: seq<Call>, last: Call)
    requires DeviceErrorSinceSignOut(before) && !last.SignOut?
    ensures DeviceErrorSinceSignOut(before + [last])
  {
    var calls := before + [last];
    var i :| 0 <= i < |before| && before[i].ApplyError? && before[i].error.category == DeviceCaBlocked
             && forall j :: i < j < |before| ==> !before[j].SignOut?;
    assert calls[i].ApplyError? && forall j :: i < j < |calls| ==> !calls[j].SignOut?;
  }

  function Notices(a: Account, calls: seq<Call>): seq<State> {
    if calls == [] then [] else
      var before := calls[..|calls| - 1];
      Notices(a, before) + Said(Notice(Run(a, before), calls[|calls| - 1]))
  }

  /** Listeners are told of every call once, by the state it leaves, even one that was there already; only
      what a blocked account ignores is not told. */
  lemma EachCallIsTold(a: Account, calls: seq<Call>, c: Call)
    ensures Notices(a, []) == []
    ensures Notices(a, calls + [c]) ==
            Notices(a, calls) + if Run(a, calls).state == Blocked && !c.SignOut? then [] else [Run(a, calls + [c]).state]
  {
    assert (calls + [c])[..|calls|] == calls;
  }

  /** Listeners never lag behind: the newest notice is the state the account is in. */
  lemma {:induction false} NoticesNeverDrift(a: Account, calls: seq<Call>)
    ensures var n := Notices(a, calls);
            Run(a, calls).state == if n == [] then a.state else n[|n| - 1]
  {
    if calls != [] {
      NoticesNeverDrift(a, calls[..|calls| - 1]);
    }
  }

  // ---- the write from outside the class ---------------------------------------------------------

  /** auth_manager.py restores the state it saw before a cancelled interactive sign-in by assigning
      the field directly, past the guards and past the listeners. */
  function Restore(a: Account, previous: State): Account {
    a.(state := previous)
  }

  lemma {:induction false} RunAppend(a: Account, c: seq<Call>, d: seq<Call>)
    ensures Run(a, c + d) == Run(Run(a, c), d)
    decreases |d|
  {
    if d == [] {
      assert c + d == c;
    } else {
      RunAppend(a, c, d[..|d| - 1]);
      assert (c + d)[..|c + d| - 1] == c + d[..|d| - 1];
    }
  }

  lemma {:induction false} FirstNotice(a: Account, rest: seq<Call>)
    requires a.state != Blocked
    ensures Notices(a, [BeginInteractive] + rest) != []
    decreases |rest|
  {
    var t := [BeginInteractive] + rest;
    if rest == [] {
      assert t[..0] == [];
    } else {
      FirstNotice(a, rest[..|rest| - 1]);
      assert t[..|t| - 1] == [BeginInteractive] + rest[..|rest| - 1];
    }
  }

  // ---- from a failed acquisition to the exception its caller sees -----------------------------------

  datatype AuthError =
    | AccountUnknown
    | ConsentNeeded(url: Option<string>)
    | DeviceBlocked
    | Reauth
    | ClaimsNeeded(claims: Option<string>)
    | OfflineNoToken
    | SignInFailed(category: Category) // a refused sign-in of a new account
    | FellThrough  // the closing fail-safe raise of _raise_for_state
    | Unclassified // anything the silent path does not catch

  function RaiseFor(newState: State, e: Classified): AuthError {
    if e.category == ConsentRequired then ConsentNeeded(e.adminConsentUrl)
    else if newState == Blocked then DeviceBlocked
    else if newState == ReauthRequired then Reauth
    else if newState == InteractiveAuth then ClaimsNeeded(e.claims)
    else FellThrough
  }

  /** A refused sign-in of a new account has no state to go by. */
  function RaiseForSignIn(e: Classified): AuthError {
    match e.category
    case ConsentRequired => ConsentNeeded(e.adminConsentUrl)
    case DeviceCaBlocked => DeviceBlocked
    case ClaimsChallenge => ClaimsNeeded(e.claims)
    case _ => SignInFailed(e.category)
  }

  /** What a failed result means to the account `a`, which becomes `b`, and to the caller. */
  ghost predicate FailsWith(a: Account, r: MsalResult, consentUrl: Option<string>, b: Account, x: AuthError) {
    if a.state == Blocked then
      b == a && x == if AsksConsent(r) && !BlamesDevice(r) then ConsentNeeded(consentUrl) else DeviceBlocked
    else if BlamesDevice(r) then
      b == a.(state := Blocked) && x == DeviceBlocked
    else if AsksConsent(r) then
      b == a.(pendingConsentUrl := consentUrl) && x == ConsentNeeded(consentUrl)
    else if HasClaims(r) && a.retries < 3 then
      b == a.(state := InteractiveAuth, retries := a.retries + 1, pendingClaims := r.claims) && x == ClaimsNeeded(r.claims)
    else if HasClaims(r) then
      b == a.(state := ReauthRequired, retries := a.retries + 1, pendingClaims := None) && x == Reauth
    else
      b == Account(ReauthRequired, None, None, 0, a.loginHint) && x == Reauth
  }

  /** Classify, apply, raise, result by result. */
  lemma FailureTable(a: Account, r: MsalResult, consentUrl: Option<string>)
    ensures var b := Apply(a, ApplyError(Classify(r, consentUrl)));
            FailsWith(a, r, consentUrl, b, RaiseFor(b.state, Classify(r, consentUrl)))
  {
    SignalsIff(r);
  }

  /** A refused sign-in of a new account, result by result. */
  lemma SignInFailureTable(r: MsalResult, consentUrl: Option<string>)
    ensures RaiseForSignIn(Classify(r, consentUrl)) ==
            if BlamesDevice(r) then DeviceBlocked
            else if AsksConsent(r) then ConsentNeeded(consentUrl)
            else if HasClaims(r) then ClaimsNeeded(r.claims)
            else if r.error == Some("invalid_grant") then SignInFailed(InvalidGrant)
            else SignInFailed(Unknown)
  {
    SignalsIff(r);
  }

  /** Classify, apply, raise: for every error result and every prior state the exception names the
      state the account is now in, the fail-safe is never reached, and a claims error carries
      exactly the account's pending claims. A consent answer is reported as such even on an account
      that stays blocked. */
  lemma ExceptionMatchesState(a: Account, r: MsalResult, consentUrl: Option<string>)
    ensures var e := Classify(r, consentUrl);
            var b := Apply(a, ApplyError(e));
            var x := RaiseFor(b.state, e);
            && x != FellThrough
            && (x.ConsentNeeded? <==> ConsentSignal(r) && !DeviceSignal(r))
            && (x.ConsentNeeded? && a.state != Blocked ==> b == a.(pendingConsentUrl := x.url))
            && (x == DeviceBlocked <==> b.state == Blocked && !x.ConsentNeeded?)
            && (x.ClaimsNeeded? ==> b.state == InteractiveAuth && b.pendingClaims == x.claims && 1 <= b.retries <= 3)
            && (x == Reauth <==> b.state == ReauthRequired && !x.ConsentNeeded?)
            && (x == Reauth ==> b.pendingClaims == None)
  {
  }
}
