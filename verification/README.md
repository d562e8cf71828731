# Winonlinux core, modelled and proved

Winonlinux is a Linux desktop client for Windows 365 Cloud PCs. This project models the parts of it
where correctness is subtle and proves what they guarantee: signing in and acquiring tokens for several
accounts at once, the redirect listener of the sign-in, keeping secrets out of logs and of the state
store, talking to Microsoft Graph within a retry budget, enumerating Cloud PCs, containing management
actions, and the registry, store and launch-URL code these rest on.

`dafny verify dfyconfig.toml` checks everything.

## How the modules fit together

Code that updates fields is a class whose methods are proved against functions on values; what is
promised is proved about those functions, over every call sequence or every interleaving. Asynchronous
code is a transition system: one step is one stretch of one task between two `await`s, a run is any
sequence of enabled steps of any number of tasks, and `IsRun(ws, es)` names the worlds and the events.
The steps use the same functions that the classes' methods are proved against.

- `AuthErrors`, `AuthState`, `Reauthentication`: classifying a failed acquisition, the per-account state
  machine, and the interactive re-authentication around it.
- `Scopes`, `Accounts`: the de-duplication key, and the manager's tables with sign-in, switch and sign-out.
- `SingleFlight` and the modules named after it: concurrent silent acquisitions with their per-key locks and
  shared futures, sign-outs, sign-ins and re-authentications in the middle of them, cancellations, and
  the global serializer of cache writes with its executor threads. `SingleFlightInvariant` is about every
  step, `SingleFlightRuns` about futures, serializer and progress, `SingleFlightExclusion` and
  `SingleFlightQuiet` about which acquisitions run at once, `SingleFlightOutcomes` about what each ends
  with, `SingleFlightResults` about how each operation begins and ends, reply by reply,
  `SingleFlightAccounts` about whose state they touch, `SingleFlightMembers` about which account is active;
  `SingleFlightCases` holds three runs.
- `Loopback`, `LoopbackRuns`: the single-accept redirect listener.
- `TokenRuns`, `Redaction`, `StructuredValues`: what the opaque-token pattern matches, the log redaction
  built on it, and the two recursive scans over structured data.
- `RetryAfter`, `GraphClient`, `RequestBudget`, `RequestOutcomes`: the request loop, what it can cost, and what
  it ends with status by status.
- `CloudPcProvider`, `CloudPcRefreshes`, `CloudPcPolling`, `CloudPcActions`: paging and the results kept per
  account, the poll loop, and the actions.
- `TaskRegistry`, `StateStore`, `StoredSecrets`, `AtomicWrite`, `WebLauncher`: the supporting state.
- `Wrappers`, `Decimals`, `Measures`: an option type, decimal notation, and the work left in a sequence.

## Where a promise needs a condition

Some promises do not hold on all inputs. For these the model keeps the code as it is, and the lemmas named
here state exactly when the promise is met and show a case where it is not.

- A cancelled follower cancels the shared future it awaits; its leader then loses a token it has obtained
  (`LeaderEndsWith`, `LeaderLosesOutcomeIff`, `KilledIffFollowerCancelled`, `CancelledFollowerCostsTheToken`).
- A cancelled holder of the serializer releases it while its thread goes on, and another write may start
  beside it (`OrphanIffWriterCancelled`, `CancelledWriteAllowsTwoWriters`).
- After a sign-out in mid-flight two acquisitions of one key can run at once, and the older one's finish
  removes the younger one's entry (`TwoLeadersIff`, `InflightIff`, `SignOutAllowsTwoLeaders`); once the
  account has no acquisition under way, single flight is back (`SingleFlightUntilDropped`).
- Restoring the previous state after a cancelled re-authentication can un-block a blocked account and leave
  listeners misinformed (`GivingUpUnblocksIff`, `GivingUpMisinformsIff`, `GivingUpUnblocks`), and completing
  one for an account that was blocked meanwhile returns as if it had succeeded (`CompletedIsActiveIff`).
- `switch_active_account` accepts an unknown account (`SwitchConsistentIff`).
- `wait_for_redirect` is documented to return an accepted result again at once; it raises if the deadline
  has passed meanwhile (`SecondWaitIff`, `LateWaitRaises`).
- Every failed request is meant to raise one of the client's own errors. There are three exceptions
  (`EscapesIff`): an address that cannot be split, such as a next link `https://[`
  (`UnsplittableEscapes`), a Retry-After header too large for a float (`HugeRetryAfterEscapes`), and a
  failure of the HTTP library that is no request error.
- A refresh is documented to fail as a whole when any page after the first fails, and to keep the entries it
  had. A later page that is a 404 or a 403 gives `NoLicence` or `ConsentRequired` instead and discards
  them, and some exceptions propagate (`LaterPageFailsIff`, `LaterPageCostsEntriesIff`,
  `LaterPageMayUnlicense`).
- `start_polling` starts nothing while a poll loop that was already asked to stop has not finished
  (`StartPollsIff`, `RestartAfterDestroyMayNotPoll`).
- The UUID placeholders of the redaction stage stay intact for up to 10^27 UUIDs in one text
  (`RedactStage`), and the logger redacts a UUID between hyphens which the store would accept
  (`LoggerIsStricterThanStore`).
- Secrets are never to reach the state store; a load that migrates rewrites the file without scanning it. It
  keeps to that if the old file is free of them and so are the steps (`LoadWritesNoSecret`); neither can be
  done without (`OldSecretIsRewritten`, `StepMayLeak`).
- An identifier `.` or `..` is not encoded in a launch URL or an action's URL, and is resolved away where dot
  segments are removed (`SurvivesDotRemovalIff`, `UrlSurvivesDotRemovalIff`, `DotsLeadElsewhere`).

## Model

| member | source | states |
|---|---|---|
| Scopes.SameKeyIffPermutation | src/winonlinux/auth_manager.py:609 | two acquisitions share a de-duplication key exactly when they are for one account and their scope lists are permutations of each other, repetitions counted |
| AuthErrors.DeviceMarkerIsAPrefixTest | src/winonlinux/auth_errors.py:114-122 | a description naming any code that merely begins with 53000 is classified as a blocked device, whatever else the result says |
| AuthErrors.ClassifiedAs | src/winonlinux/auth_errors.py:83-182 | which category each failed result falls into, by the codes, texts, suberror, claims and error name it carries, and what is passed on: the claims verbatim for a challenge, the consent page for missing consent, nothing else |
| AuthState.AccountAuthState.constructor | src/winonlinux/auth_state.py:117-134 | a new account is signed out with nothing pending |
| AuthState.AccountAuthState.BeginInteractive | src/winonlinux/auth_state.py:164-179 | the whole new state; refused exactly on a blocked account, and listeners are told exactly when a transition happens |
| AuthState.AccountAuthState.MarkActive | src/winonlinux/auth_state.py:181-201 | the whole new state: active, counter and pending values cleared, the hint replaced only by a given one; nothing on a blocked account |
| AuthState.AccountAuthState.BeginSilentRefresh | src/winonlinux/auth_state.py:203-211 | the whole new state; nothing changes on a blocked account |
| AuthState.AccountAuthState.ApplyError | src/winonlinux/auth_state.py:213-230 | the whole new state for each of the six error categories and the notice sent, the field assignments being made one by one in the program's order |
| AuthState.AccountAuthState.MarkOffline | src/winonlinux/auth_state.py:232-238 | the whole new state; nothing changes on a blocked account |
| AuthState.AccountAuthState.SignOut | src/winonlinux/auth_state.py:240-246 | every field is back to that of a new account without a hint, and listeners are told |
| AuthState.ClaimsFollowTheChallenges | src/winonlinux/auth_state.py:66-75 | over every trace, the counter is the number of challenges heard since the last reset and the pending claims are the newest challenge's verbatim while there were one to three, and none otherwise; the counter goes on growing past the bound |
| AuthState.ChallengeBudget | src/winonlinux/auth_state.py:66-75 | between resets, and from any state, the challenges that end in interactive sign-in number exactly the rise of the counter capped at three |
| AuthState.ChallengesPerReset | src/winonlinux/auth_state.py:38-75 | over a whole trace at most three challenges per reset end in interactive sign-in |
| AuthState.BlockedUntilSignOut | src/winonlinux/auth_state.py:250-265 | once blocked, every field is frozen through any calls until sign-out |
| AuthState.BlockedIffDeviceErrorSinceSignOut | src/winonlinux/auth_state.py:84-88 | an account that was not blocked is blocked after a trace exactly when a device error was heard since the last sign-out |
| AuthState.NoticesNeverDrift | src/winonlinux/auth_state.py:267-293 | the newest notice to listeners is the state the account is in, over every trace |
| AuthState.StateReadOff | src/winonlinux/auth_state.py:164-293 | the state and the challenge counter a whole trace leaves, read off its calls without running them: blocked by a device error since the last sign-out, else what the last call to name a state said |
| AuthState.FieldsReadOff | src/winonlinux/auth_state.py:181-265 | the sign-in hint, the consent page and the claims a trace leaves pending, read off its calls: the newest that was brought unless something that clears it came later |
| AuthState.EachCallIsTold | src/winonlinux/auth_state.py:267-293 | listeners are told of every call once, by the state it leaves, even one that was there already, and of nothing a blocked account ignores |
| AuthState.FailureTable | src/winonlinux/auth_manager.py:918-945 | result by result, what a failed acquisition leaves in the account, blocked or not and with or without challenges left, and the exception it raises |
| AuthState.SignInFailureTable | src/winonlinux/auth_manager.py:479-497 | result by result, the exception of a refused sign-in |
| AuthState.ExceptionMatchesState | src/winonlinux/auth_manager.py:918-945 | for every error result and prior state, classify then apply then raise yields an exception that names the resulting state, never the fail-safe, and a claims error carries the account's pending claims |
| Reauthentication.BeginReauth | src/winonlinux/auth_manager.py:736-750 | refused on a blocked account without a trace; otherwise interactive, with the pending claims asked for verbatim |
| Reauthentication.EndReauth | src/winonlinux/auth_manager.py:746-782 | the new state and the ending for each way the browser round trip ends; the restoring write tells no listener |
| Reauthentication.AbandonedLeavesNoTrace | src/winonlinux/auth_manager.py:751-763 | giving up leaves the account exactly as it was if nothing else reached it |
| Reauthentication.BeginsWith | src/winonlinux/auth_manager.py:736-750 | refused without a trace on a blocked account, interactive otherwise |
| Reauthentication.EndsWith | src/winonlinux/auth_manager.py:751-782 | what each of the four endings leaves in the account as it finds it, whatever reached it meanwhile, and what the caller gets |
| Reauthentication.CompletedIsActiveIff | src/winonlinux/auth_manager.py:780-782 | a completed one leaves the account active with nothing pending, exactly unless a device error has blocked it meanwhile; then the call still returns as if it had succeeded |
| Reauthentication.DeniedMatchesState | src/winonlinux/auth_manager.py:765-778 | a denied one raises what the account's new state calls for, whatever reached the account meanwhile |
| Reauthentication.GivingUpUnblocksIff | src/winonlinux/auth_manager.py:751-763 | giving up a re-authentication un-blocks a blocked account exactly if a device error was heard, with no sign-out after it, while the browser was open |
| Reauthentication.GivingUpUnblocks | src/winonlinux/auth_manager.py:751-763 | such a run: an active account is blocked meanwhile, the user gives up, and the account is exactly what it was while listeners were last told that it is blocked |
| Reauthentication.GivingUpMisinformsIff | src/winonlinux/auth_manager.py:751-763 | after giving up, what listeners were last told is false exactly if the calls heard meanwhile leave another state than the one before: a device error since sign-out, or another last word |
| Reauthentication.StuckIff | src/winonlinux/auth_manager.py:739-782 | exactly when, for each way the round trip ends and in terms of the calls heard meanwhile, an account still says that a sign-in is going on after the re-authentication is over |
| Accounts.AdoptConsistent | src/winonlinux/auth_manager.py:499-510 | adding an account keeps: an active account exactly when there are accounts, and it is one of them |
| Accounts.DropConsistent | src/winonlinux/auth_manager.py:563-586 | removing an account keeps the same |
| Accounts.SwitchConsistentIff | src/winonlinux/auth_manager.py:515-537 | switching keeps the books consistent exactly when the argument is a known account; the code does not check it |
| Accounts.DropEffects | src/winonlinux/auth_manager.py:563-586 | after sign-out no table mentions the account, and every other account's entries are what they were |
| Accounts.DroppedActive | src/winonlinux/auth_manager.py:580-581 | who is active when an account is gone: the same unless it was that one, then the first of those left, and nobody exactly if none is |
| Accounts.KeysOf | src/winonlinux/auth_manager.py:575-578 | exactly the keys of a table that belong to the account |
| Accounts.Purge | src/winonlinux/auth_manager.py:575-578 | the loop leaves exactly the other accounts' entries of a table |
| Accounts.AuthManager.constructor | src/winonlinux/auth_manager.py:314-323 | a new manager has empty tables and no active account |
| Accounts.AuthManager.RestoreAccount | src/winonlinux/auth_manager.py:424-441 | one account of the start-up loop: stored as active, and the active account if there was none |
| Accounts.AuthManager.Rebuild | src/winonlinux/auth_manager.py:424-445 | the start-up loop: exactly the cached accounts, all active and each with a hint it was listed with, the first listed is the active account, and one notice |
| Accounts.AuthManager.AddAccount | src/winonlinux/auth_manager.py:499-510 | the account is there with a new active object and the given hint, the others keep theirs; the active account is the new one exactly if no other account was there, and listeners are told exactly then, and otherwise it stays |
| Accounts.AuthManager.SwitchActiveAccount | src/winonlinux/auth_manager.py:515-537 | the new active account, whose task group is cancelled, and the notice; nothing for the account that is active already |
| Accounts.AuthManager.RemoveEntry | src/winonlinux/auth_manager.py:563-570 | the entry goes and the removed state object is signed out |
| Accounts.AuthManager.DropAccount | src/winonlinux/auth_manager.py:563-586 | sign-out's last stretch as a whole: the new tables, the signed-out state object, and the active account, which stays unless it was the one removed, and then is the first of those left |
| Accounts.AuthManager.JoinOrLock | src/winonlinux/auth_manager.py:609-621 | the shared future to follow if there is one, else the key's one lock, made on first use and never replaced |
| Accounts.AuthManager.FollowOrLead | src/winonlinux/auth_manager.py:622-633 | the second check: follow what is registered, or register a new future |
| Accounts.AuthManager.Retire | src/winonlinux/auth_manager.py:641-647 | the key is removed whichever future it stands for by then |
| SingleFlightInvariant.StepKeeps | src/winonlinux/auth_manager.py:592-782 | every step of every task (acquisition, sign-out, sign-in, re-authentication, a failing lookup, cancellation, thread end, switch) keeps the invariant on locks, futures, tables, serializer and tasks |
| SingleFlightRuns.RunInvariant | src/winonlinux/auth_manager.py:592-718 | the invariant holds in every reachable world |
| SingleFlightRuns.OneLeaderPerLock | src/winonlinux/auth_manager.py:621-647 | one lock object never admits two acquisitions, whatever is signed out or cancelled meanwhile |
| SingleFlightExclusion.CurrentLockIff | src/winonlinux/auth_manager.py:575-621 | the lock a call waits for or holds is the one its key's entry names exactly if the account's tables were not dropped since the call began |
| SingleFlightExclusion.LeadersApart | src/winonlinux/auth_manager.py:575-621 | of two acquisitions of one key at once, the older began before and the younger after some drop of the account's tables by a sign-out |
| SingleFlightExclusion.TwoLeadersIff | src/winonlinux/auth_manager.py:575-621 | single flight fails for a key exactly if one of its leaders began before, and one after, a sign-out dropped the account's tables |
| SingleFlightExclusion.InflightIff | src/winonlinux/auth_manager.py:575-647 | the in-flight entry is the future a call registered exactly if that call still leads and since then neither was the account dropped nor did any leader of the key finish |
| SingleFlightQuiet.SingleFlightUntilDropped | src/winonlinux/auth_manager.py:609-647 | from any moment at which the account has no acquisition under way until a sign-out drops its tables, at most one acquisition runs per scope set, the in-flight map holds a key exactly while its leader runs, and the lock is never contended, whatever happened before |
| SingleFlightQuiet.SingleFlightWithoutSignOut | src/winonlinux/auth_manager.py:609-647 | in particular all along a run in which no sign-out of the account has begun |
| SingleFlightOutcomes.LeaderLosesOutcomeIff | src/winonlinux/auth_manager.py:633-647 | a leader ends with exactly what its own acquisition gave unless a follower was cancelled while awaiting its future, and then with an invalid-state error; what it gave is its token for a success, and for every other reply, a failed lookup and a cancellation the exception named |
| SingleFlightOutcomes.ReturnsThroughFuture | src/winonlinux/auth_manager.py:611-647 | every acquisition that has returned came back through its own or a followed future, exactly unless it was cancelled while waiting for the lock or after its future was resolved, and then it ends with that cancellation |
| SingleFlightOutcomes.FollowerSharesOutcome | src/winonlinux/auth_manager.py:617-640 | every call that ever followed a future and has returned has exactly its leader's outcome unless it was cut off so; the leader is another call, acquiring for the same account and a permutation of the same scopes; a killed future gives its followers a cancellation and its leader an invalid-state error |
| SingleFlightResults.LeaderEndsWith | src/winonlinux/auth_manager.py:649-718 | reply by reply, what a leader ends with and what it leaves in its account object, blocked meanwhile or not: a success its token and an active object with nothing pending, no network an offline one, a failed result what its categories call for, an uncaught exception or a cancellation nothing; and exactly when its future was killed |
| SingleFlightResults.AcquisitionBegins | src/winonlinux/auth_manager.py:606-664 | an arriving acquisition follows what is in flight for its key, or asks for its one lock and, if it is free, goes on: refused at once for an unknown or blocked account, otherwise leading on the account's present object, which says so if it was active or offline |
| SingleFlightResults.LockHolderBegins | src/winonlinux/auth_manager.py:621-664 | so does one that gets the lock it waited for |
| SingleFlightResults.SignOutEndsWith | src/winonlinux/auth_manager.py:539-588 | a sign-out finishes and removes its account once MSAL has removed it or did not know it; an exception or a cancellation before that leaves the account as it is |
| SingleFlightResults.SignInEndsWith | src/winonlinux/auth_manager.py:466-513 | a granted sign-in brings a new active object under its account; a refused one raises what the failed result says; nothing else touches the accounts |
| SingleFlightResults.RenewalBegins | src/winonlinux/auth_manager.py:721-750 | a re-authentication is refused at once for an unknown or blocked account; otherwise it makes the present object interactive and remembers the state it had |
| SingleFlightResults.RenewalEndsWith | src/winonlinux/auth_manager.py:746-782 | how each ending of a re-authentication leaves the object it began with, and what its caller gets |
| SingleFlightResults.JobStays | src/winonlinux/auth_manager.py:649-782 | in between, every task keeps the account object, the remembered state, the lock and the future it began with |
| SingleFlightRuns.PendingFuturesHaveLiveLeaders | src/winonlinux/auth_manager.py:617-647 | every unresolved future has a live leader even after sign-out removed its entry, and the map never holds a resolved future |
| SingleFlightRuns.FollowersJoinLiveLeaders | src/winonlinux/auth_manager.py:617-632 | whenever a call starts to follow, the leader is still at work on that future: the calls overlap, and nothing stale is shared |
| SingleFlightRuns.KilledIffFollowerCancelled | src/winonlinux/auth_manager.py:617-632 | a future is killed exactly when a follower was cancelled while awaiting it |
| SingleFlightRuns.OrphanIffWriterCancelled | src/winonlinux/auth_manager.py:681-684 | a cache-mutating call is in progress without the serializer exactly when its task was cancelled during it and its thread has not ended |
| SingleFlightRuns.OneWriter | src/winonlinux/auth_cache.py:250-258 | unless a task was cancelled during its write, at most one cache-mutating call is in progress across all accounts and operations: acquisitions, removals, sign-ins and re-authentications |
| SingleFlightRuns.NoDeadlock | src/winonlinux/auth_manager.py:554-555 | while some call has not returned, some call can get on: the per-key lock is only ever taken before the serializer |
| SingleFlightRuns.EveryCallReturns | src/winonlinux/auth_manager.py:592-647 | left to themselves all calls return, within a number of steps bounded by the work left, in whatever order |
| SingleFlightAccounts.AccountsAreIsolated | src/winonlinux/auth_manager.py:563-586 | steps of other accounts' tasks leave an account's entry, state, locks and futures as they were, over any stretch of a run |
| SingleFlightAccounts.SignOutLeavesNothing | src/winonlinux/auth_manager.py:539-588 | when a sign-out returns, its account is in no table and its state object is signed out, while every other account is untouched |
| SingleFlightAccounts.ActiveAccountIsAMember | src/winonlinux/auth_manager.py:499-586 | in every reachable world the active account is a member, and there is none exactly when there are no accounts |
| SingleFlightMembers.OrderIsByAge | src/winonlinux/auth_manager.py:501-581 | the order of the accounts is that of their sign-ins over every run: each has been one since before the next became one |
| SingleFlightMembers.ActiveAccountAfter | src/winonlinux/auth_manager.py:499-586 | the active account after every step of every run: a sign-in sets it exactly if no other account is there, a sign-out of the active account hands over to the account that has been there longest, a switch sets it, and nothing else changes it; and when an account has a task group |
| SingleFlightAccounts.StaleLeaderSparesNewAccount | src/winonlinux/auth_manager.py:649-718 | an acquisition begun before its account was signed out and added again never touches the new account's state |
| SingleFlightCases.CancelledFollowerCostsTheToken | src/winonlinux/auth_manager.py:617-640 | a run in which the leader's acquisition succeeds and the leader, which nobody cancelled, ends with an invalid-state error because a follower was cancelled |
| SingleFlightCases.SignOutAllowsTwoLeaders | src/winonlinux/auth_manager.py:575-578 | a run without cancellations in which sign-out and re-adding let two acquisitions of one key run at once, the older of which then removes the younger one's entry |
| SingleFlightCases.CancelledWriteAllowsTwoWriters | src/winonlinux/auth_cache.py:250-258 | a run in which a sign-in is cancelled during its exchange and the next one's exchange starts beside it: two cache-mutating calls in progress |
| Loopback.LoopbackListener.constructor | src/winonlinux/auth_loopback.py:130-141 | a listener that was not started holds nothing |
| Loopback.LoopbackListener.BeginStart | src/winonlinux/auth_loopback.py:143-162 | refused once started; otherwise a new unset event and nothing else |
| Loopback.LoopbackListener.FinishStart | src/winonlinux/auth_loopback.py:160-163 | started, with a fresh deadline |
| Loopback.LoopbackListener.Arm | src/winonlinux/auth_loopback.py:172-187 | the expected state is set, or the call is refused before start |
| Loopback.LoopbackListener.BeginWait | src/winonlinux/auth_loopback.py:189-230 | the state is re-armed and the call returns, raises or goes on waiting, as the deadline and the event say |
| Loopback.LoopbackListener.Decide | src/winonlinux/auth_loopback.py:275-297 | the verdict on one redirect and the committed slot |
| LoopbackRuns.StepKeeps | src/winonlinux/auth_loopback.py:143-302 | every step of handlers, waiters and overlapping starts keeps the invariant |
| LoopbackRuns.SingleAccept | src/winonlinux/auth_loopback.py:259-302 | at most one connection is answered with the acceptance; the event is set exactly when a result is stored and exactly when one was; the result is what that connection sent |
| LoopbackRuns.ResultIsFinal | src/winonlinux/auth_loopback.py:279-297 | the stored result never changes and its event stays set, over re-arming, further connections and overlapping starts |
| LoopbackRuns.DecisionIff | src/winonlinux/auth_loopback.py:275-297 | each redirect is accepted exactly when nothing was before and its state is the one expected at that moment, else turned away with the listener unchanged |
| LoopbackRuns.OnlyMatchingCommits | src/winonlinux/auth_loopback.py:286-297 | whatever fills the slot is a redirect whose state equals the expected one at commit |
| LoopbackRuns.OthersLeaveNoTrace | src/winonlinux/auth_loopback.py:259-264 | malformed, rejected and abandoned connections never consume the slot or disturb a waiter |
| LoopbackRuns.WaitersAgree | src/winonlinux/auth_loopback.py:213-230 | every wait that returns returns the one accepted result |
| LoopbackRuns.SecondWaitIff | src/winonlinux/auth_loopback.py:202-220 | after the acceptance a further wait returns the result exactly if the deadline has not passed; the documentation promises it always |
| LoopbackRuns.WaitEndsWith | src/winonlinux/auth_loopback.py:189-230 | how every wait ends: refused before start, raising after the deadline, returning the stored redirect, cancelled; and when it goes on |
| LoopbackRuns.ListenerSteps | src/winonlinux/auth_loopback.py:143-187 | what each step does to the listener: only a start that binds makes it a server with a deadline, only arming and waiting change the expected state |
| LoopbackRuns.ConnectionSteps | src/winonlinux/auth_loopback.py:248-302 | what a connection is answered: a malformed request is invalid at once, and a closed connection got what was decided |
| LoopbackRuns.LateWaitRaises | src/winonlinux/auth_loopback.py:218-220 | such a run: accepted, deadline passed, and the wait that comes then raises |
| LoopbackRuns.NobodyWaitsInVain | src/winonlinux/auth_loopback.py:222-230 | once a redirect is accepted, every waiter can wake up with it |
| LoopbackRuns.NoDeadlock | src/winonlinux/auth_loopback.py:275-302 | while a connection is open, some connection can get on |
| LoopbackRuns.EveryConnectionAnswered | src/winonlinux/auth_loopback.py:248-302 | left to themselves the open connections are all closed, in boundedly many steps, and each got a response |
| TokenRuns.SplitIsFaithful | src/winonlinux/logging_setup.py:105 | taking a text apart into separators and token runs loses nothing, and the runs are maximal |
| TokenRuns.SplitJoin | src/winonlinux/logging_setup.py:105 | there is only one such way to take it apart |
| TokenRuns.MatchesAreTrimmedRuns | src/winonlinux/logging_setup.py:103-105 | the leftmost-greedy matches of the opaque pattern are exactly the maximal token runs trimmed of outer hyphens with at least 32 characters left, and substituting them leaves everything else |
| TokenRuns.TokenCharacters | src/winonlinux/logging_setup.py:105 | the characters of the pattern and of a word, and the length of 32 |
| TokenRuns.TrimmedOf | src/winonlinux/logging_setup.py:105 | a run is its trimmed part between outer hyphens, and the mark takes the place of that part if it has 32 characters or more |
| Redaction.RedactStage | src/winonlinux/logging_setup.py:184-195 | stash, substitute and restore, as the loop does it, equals the one-pass rewriting of runs exactly for up to 10^27 UUIDs; beyond, an unrestored placeholder is left |
| Redaction.RestoreUndoesStash | src/winonlinux/logging_setup.py:115-123 | stashing and restoring alone change nothing, for any number of UUIDs |
| Redaction.RedactionGuarantees | src/winonlinux/logging_setup.py:184-195 | every standalone UUID survives verbatim and in order, no other trimmed run of 32 characters remains, and the stage is idempotent |
| Redaction.UnchangedIff | src/winonlinux/logging_setup.py:184-195 | a text is left alone exactly when each of its long runs is a UUID |
| StructuredValues.RedactionKeepsShape | src/winonlinux/logging_setup.py:202-221 | the redacted value has the same paths, keys and indices, with the redaction of what stood there at the end of each |
| StructuredValues.RedactedAt | src/winonlinux/logging_setup.py:202-221 | what stands at the end of each path afterwards: strings redacted, connection-file content replaced whole, anything else as it was, containers of the same kind, size and keys |
| StructuredValues.NoLeafEscapes | src/winonlinux/logging_setup.py:202-221 | every string found in the result is the marker or the redaction of the string that stood there |
| StructuredValues.EmbeddedIff | src/winonlinux/state_store.py:82-98 | the embedded scan finds nothing exactly when every long run is, trimmed, a UUID |
| StructuredValues.LoggerIsStricterThanStore | src/winonlinux/state_store.py:82-98 | what the logger leaves alone passes the store's embedded scan; the texts that pass and the logger changes are exactly those with a UUID between hyphens |
| StructuredValues.FindsFirstOffender | src/winonlinux/state_store.py:123-156 | the search returns the first offending place in depth-first order and nothing exactly when there is none |
| StructuredValues.PathsLead | src/winonlinux/state_store.py:132-149 | the path listed with a place really leads to it |
| StructuredValues.PathsAreListed | src/winonlinux/state_store.py:132-149 | every place a path leads to is visited |
| StructuredValues.NothingEarlier | src/winonlinux/state_store.py:132-149 | no path leads to an offending place that comes before the reported one in depth-first order |
| StructuredValues.BeforeIsStrict | src/winonlinux/state_store.py:126-127 | that order is strict |
| StructuredValues.StringRefusedIff | src/winonlinux/state_store.py:150-156 | a string is refused exactly if it is a JWT, or is up to a final newline at least 32 token characters and no UUID, or has a run of which at least 32 characters are left without its outer hyphens that are no UUID |
| StructuredValues.SecretNameIff | src/winonlinux/state_store.py:48-54 | a key names a secret exactly if one of the documented words stands in it, in letters of either case |
| StructuredValues.RefusedIff | src/winonlinux/state_store.py:123-156 | a document is refused exactly when some path leads to a Secret, a value under a key with a documented word or a telltale string, and the reported path leads to one |
| RetryAfter.HeaderRoundTrip | src/winonlinux/graph_client.py:200-213 | a header that spells an integer, with blanks around it, means that integer, negative ones included; too large a one makes the conversion raise |
| RetryAfter.ReadAs | src/winonlinux/graph_client.py:200-213 | every header that spells an integer means its digits with its sign, or overflows: 2^1024 - 2^970 and beyond do not fit a float |
| RetryAfter.FloatLimitIs | src/winonlinux/graph_client.py:211 | where a float ends |
| RetryAfter.ReadableIff | src/winonlinux/graph_client.py:200-213 | an absent header gives no seconds, and one that is there can be read exactly if it spells an integer of at most 4300 digits, perhaps signed, underscored and with blanks around it |
| GraphClient.Conclude | src/winonlinux/graph_client.py:314-361 | the status ladder of one round |
| GraphClient.RequestJson | src/winonlinux/graph_client.py:278-419 | an address outside the Graph is refused before any token is asked for; otherwise the loop ends in the first round that is not retried or the last the budget allows, does exactly what the log says before, and returns what that round means |
| RequestBudget.CallIsBounded | src/winonlinux/graph_client.py:290-413 | at most n+1 requests and n waits, each request right after a token acquired for it, no wait above 300 s and at most 300n in all |
| RequestBudget.WaitAfterRound | src/winonlinux/graph_client.py:216-221 | the wait after a round is the clamped header or min(2^j, 30) where j counts earlier rounds without a header, however header waits interleave |
| RequestBudget.RecoversWithinBudget | src/winonlinux/graph_client.py:363-413 | a transient failure within the budget never surfaces |
| RequestBudget.ThrottledIff | src/winonlinux/graph_client.py:383-401 | throttling surfaces exactly when all n+1 rounds were transient and the last was a 429 |
| RequestBudget.LastHeaderIsLast | src/winonlinux/graph_client.py:366-378 | what it reports is the most recent usable header, clamped |
| RequestBudget.EscapesIff | src/winonlinux/graph_client.py:102-119 | an error that is none of the client's own gets out of a request, with the shape the provider catches or another, exactly for an address that cannot be split, and for an accepted address if the first round not retried gets its token and then a non-request failure of the library or a retryable answer whose header overflows a float |
| RequestBudget.UnsplittableEscapes | src/winonlinux/graph_client.py:114-119 | of the addresses that are not the Graph's, the ones that cannot be split, and only those, end with such an error instead of the refusal; no token is asked for either way |
| RequestBudget.HugeRetryAfterEscapes | src/winonlinux/graph_client.py:208-213 | a concrete such header: a one and 320 zeros |
| RequestOutcomes.OutcomeTable | src/winonlinux/graph_client.py:288-419 | what a request ends with in the round reached after the ones that asked for a retry, for every status, failure and budget |
| RequestOutcomes.RetriedIff | src/winonlinux/graph_client.py:89-92 | a first answer followed by a 200 with a JSON body gives that body exactly if it was a 429, 502, 503 or 504, or had it itself |
| RequestOutcomes.AllowedIff | src/winonlinux/graph_client.py:94-119 | the one address that is allowed: https and graph.microsoft.com, exactly |
| RequestOutcomes.OthersRefused | src/winonlinux/graph_client.py:94-119 | only https and the one host are ever asked, and then a token is acquired first |
| RequestOutcomes.RequestsSent | src/winonlinux/graph_client.py:294-413 | a token and a request for each round, one wait between any two, and no request in a round whose token was refused |
| RequestOutcomes.WaitTable | src/winonlinux/graph_client.py:216-221 | the wait after each round in seconds: the header, 300 at most, or 1, 2, 4, 8, 16 and then 30, moving on only with rounds without a header |
| RequestOutcomes.ThrottledReports | src/winonlinux/graph_client.py:366-401 | throttling that surfaces reports the last header that could be used, 300 seconds at most |
| CloudPcProvider.ReadItems | src/winonlinux/cloudpc_provider.py:100-116 | a page's entries in order, or failure if any item is malformed |
| CloudPcProvider.ReadPage | src/winonlinux/cloudpc_provider.py:362-375 | a page's entries and next link, or how the refresh ends on it |
| CloudPcProvider.FetchAll | src/winonlinux/cloudpc_provider.py:358-375 | the paging loop asks along the whole chain of links, stops in the first round that does not lead on, and returns what the pages amount to |
| CloudPcProvider.ListedIff | src/winonlinux/cloudpc_provider.py:361-413 | a list comes out exactly when the chain was followed to its end and every page could be read, never a prefix |
| CloudPcProvider.LaterPageFailsIff | src/winonlinux/cloudpc_provider.py:331-333 | a page after the first that cannot be used makes the whole refresh a failure exactly unless it is a 404, a 403, no JSON object, a refused token or an escape the provider does not catch |
| CloudPcProvider.LaterPageCostsEntriesIff | src/winonlinux/cloudpc_provider.py:346-350 | the entries kept for the account are lost by such a page, so that the next failure hands out none, exactly if it was a 404 or a 403 |
| CloudPcProvider.LaterPageMayUnlicense | src/winonlinux/cloudpc_provider.py:331-338 | such a refresh: a page with a Cloud PC and a link, then a 404 |
| CloudPcProvider.NothingIsLost | src/winonlinux/cloudpc_provider.py:369-375 | each entry of each page stands where the pages before it leave off |
| CloudPcProvider.Provider.EndRefresh | src/winonlinux/cloudpc_provider.py:376-424 | the typed outcome of a refresh and the results kept, ending by ending |
| CloudPcProvider.Provider.CancelCurrentPollTask | src/winonlinux/cloudpc_provider.py:506-509 | the tracked task is asked to stop unless done, and forgotten |
| CloudPcProvider.Provider.StartPolling | src/winonlinux/cloudpc_provider.py:428-450 | nothing while the account's task is not done; otherwise the old one is cancelled and a fresh one tracked under the account |
| CloudPcProvider.Provider.PausePolling | src/winonlinux/cloudpc_provider.py:452-462 | the task is cancelled and the account remembered |
| CloudPcProvider.Provider.StopPolling | src/winonlinux/cloudpc_provider.py:472-484 | the task is cancelled and the account forgotten |
| CloudPcProvider.KeepsLatestSuccess | src/winonlinux/cloudpc_provider.py:277-281 | for any interleaving, what is kept for an account is its latest outcome that is no failure, and nothing exactly if there was none |
| CloudPcProvider.AccountsDoNotMix | src/winonlinux/cloudpc_provider.py:376-424 | no refresh of one account changes what is kept for another |
| CloudPcProvider.FailureShowsLatestSuccess | src/winonlinux/cloudpc_provider.py:388-424 | a failure hands out exactly the entries of its own account's latest success, none if that was no enumeration |
| CloudPcRefreshes.RefreshReports | src/winonlinux/cloudpc_provider.py:361-424 | reply by reply and over every run, what a refresh reports and what is kept: a 404 no licence, a 403 missing consent, the last page nothing if no page had an entry and otherwise the entries of all pages in order; anything else a failure with the entries kept so far, or an exception, and what is kept stays |
| CloudPcRefreshes.AddressesAsked | src/winonlinux/cloudpc_provider.py:70-71 | the first address asked is the documented one, and each further one is the link of the page before |
| CloudPcPolling.OneLivePoll | src/winonlinux/cloudpc_provider.py:441-450 | there are never two poll loops that are neither done nor asked to stop, and a live one polls the tracked account |
| CloudPcPolling.PauseEndsPolling | src/winonlinux/cloudpc_provider.py:452-484 | pausing and stopping leave no live poll loop |
| CloudPcPolling.StartPollsIff | src/winonlinux/cloudpc_provider.py:428-450 | starting leaves the account polled unless its poll loop was asked to stop from outside and has not finished yet |
| CloudPcPolling.RestartAfterDestroyMayNotPoll | src/winonlinux/cloudpc_provider.py:441-442 | a run: start, the group is destroyed, start again before the cancelled loop ended; nothing polls |
| CloudPcActions.UrlNamesCloudPc | src/winonlinux/cloudpc_actions.py:338-341 | whatever the identifier, the URL as written divides into the fixed host and path, that identifier and the endpoint |
| CloudPcActions.UrlsAsWritten | src/winonlinux/cloudpc_actions.py:69-80 | the four actions and the URL each is posted to |
| CloudPcActions.UrlSurvivesDotRemovalIff | src/winonlinux/cloudpc_actions.py:338-341 | where dot segments are removed before sending, the path still names that Cloud PC exactly if its identifier is neither a dot nor two |
| CloudPcActions.DotsLeadElsewhere | src/winonlinux/cloudpc_actions.py:338-341 | the paths the two dot identifiers lead to instead |
| CloudPcActions.GateOpenIff | src/winonlinux/cloudpc_actions.py:237-251 | all along a run, the gate of an action is open exactly if the service is enabled in its cloud, the action is one of the four and no call of it has broken the contract |
| CloudPcActions.GateSays | src/winonlinux/cloudpc_actions.py:229-251 | why an action is unavailable: switched off, a national cloud, disabled, for administrators, unknown, in this order |
| CloudPcActions.OutcomeByAnswer | src/winonlinux/cloudpc_actions.py:343-417 | what a posted action comes to for every status and failure of its last round: accepted by a 204 or an empty object, disabled by a 404, other client errors and content |
| CloudPcActions.ActionService.EndPost | src/winonlinux/cloudpc_actions.py:343-417 | the outcome for every answer of the client, and which answers disable the action or ask for a refresh |
| CloudPcActions.ActionService.PostAction | src/winonlinux/cloudpc_actions.py:323-417 | nothing is sent past a closed gate; otherwise one call of the client and its judgement |
| CloudPcActions.ActionService.InvokeAction | src/winonlinux/cloudpc_actions.py:287-306 | reprovision and unknown actions are refused before anything is sent; a closed gate says why and sends nothing; otherwise one request with five retries and the judgement on what it ended with |
| CloudPcActions.ActionService.InvokeReprovision | src/winonlinux/cloudpc_actions.py:308-321 | at most one request against any server, none when unconfirmed or gated off |
| CloudPcActions.CallSteps | src/winonlinux/cloudpc_actions.py:287-417 | what each step does to the calls: refused, turned away by the gate with its reason, posted, ended with the judgement on the answer, cancelled |
| CloudPcActions.DisabledIff | src/winonlinux/cloudpc_actions.py:366-404 | an action is disabled exactly when a call of that action broke the contract |
| CloudPcActions.PostingWasAllowed | src/winonlinux/cloudpc_actions.py:297-336 | whatever is being posted passed the gate, and a reprovision was confirmed |
| CloudPcActions.DisabledForGood | src/winonlinux/cloudpc_actions.py:220-222 | the disabled set only grows |
| CloudPcActions.NoPostAfterDisable | src/winonlinux/cloudpc_actions.py:332-336 | no call begun after an action was disabled posts it |
| CloudPcActions.OtherGatesUnaffected | src/winonlinux/cloudpc_actions.py:237-251 | a step changes one action's gate at most, and only when its own answer breaks the contract |
| CloudPcActions.BreaksContractIff | src/winonlinux/cloudpc_actions.py:361-404 | which server answers disable an action, through the client's whole loop |
| TaskRegistry.Registry.GetOrCreateGroup | src/winonlinux/task_registry.py:137-145 | an empty group if there was none |
| TaskRegistry.NormalizedAs | src/winonlinux/task_registry.py:131-133 | the application's own tasks have one group of their own, and an account's are under its id |
| TaskRegistry.Registry.CreateTask | src/winonlinux/task_registry.py:147-166 | a task no group has seen is tracked under the key |
| TaskRegistry.Registry.DiscardTask | src/winonlinux/task_registry.py:168-171 | the task leaves the group its key names now, if any |
| TaskRegistry.Registry.CancelGroup | src/winonlinux/task_registry.py:173-186 | exactly the group's unfinished tasks are asked to stop |
| TaskRegistry.Registry.DestroyGroup | src/winonlinux/task_registry.py:188-196 | the same, and the group is gone |
| TaskRegistry.Registry.PendingCount | src/winonlinux/task_registry.py:202-208 | the number of the group's tasks that are not done |
| TaskRegistry.BucketIff | src/winonlinux/task_registry.py:147-196 | a group holds exactly the tasks created under its key since it was last destroyed whose callback has not run |
| TaskRegistry.CancellationIsContained | src/winonlinux/task_registry.py:173-196 | a task is asked to stop only itself or through the group that holds it |
| TaskRegistry.SuccessorStartsEmpty | src/winonlinux/task_registry.py:188-196 | a group used again after a destruction holds only tasks created after it |
| TaskRegistry.LateCallbackIsHarmless | src/winonlinux/task_registry.py:165-171 | a callback arriving after its group was destroyed changes no group |
| StateStore.Store.constructor | src/winonlinux/state_store.py:184-199 | the store's configuration and its file |
| StateStore.Store.RunSteps | src/winonlinux/state_store.py:281-292 | the migration loop composes the steps in order, or stops at the first missing or raising one |
| StateStore.Store.LoadStore | src/winonlinux/state_store.py:218-274 | what a load returns and the file it leaves |
| StateStore.Store.Save | src/winonlinux/state_store.py:296-326 | a document with a secret is refused with the file untouched; otherwise the stamped document is written |
| StateStore.SaveThenLoad | src/winonlinux/state_store.py:324-326 | what was saved is what is loaded, stamped with the version |
| StateStore.MigrationComposes | src/winonlinux/state_store.py:281-292 | migrating to one version and on to another is migrating to the other |
| StateStore.GapStops | src/winonlinux/state_store.py:283-289 | a gap is found after exactly the steps before it, and no load gets past it |
| StateStore.MigratesIff | src/winonlinux/state_store.py:281-292 | a migration ends with a document exactly if a chain of steps leads there, one for every version in between, each accepting what the one before it made |
| StateStore.StopsIff | src/winonlinux/state_store.py:283-292 | it stops for a missing step, and for a raising one, exactly at the first version reached by the steps before it that has none, or whose step refuses what they made |
| StateStore.LoadReturnsIff | src/winonlinux/state_store.py:218-274 | a load returns, whatever the file holds, exactly unless an old document meets a failing rewrite or has no such chain up to the current version; it then leaves the file |
| StateStore.LoadTable | src/winonlinux/state_store.py:218-274 | what a load makes of every file: missing, no JSON object, newer, current, older with and without a chain of steps, and without a version |
| StateStore.RewrittenIff | src/winonlinux/state_store.py:254-274 | the file is rewritten exactly by loads that bring an old document up to date |
| StateStore.LoadIsIdempotent | src/winonlinux/state_store.py:268-274 | a second load returns the same and changes nothing |
| StateStore.AcrossBuilds | src/winonlinux/state_store.py:258-272 | a document saved by one build is upgraded by a later build's own steps and left alone by an earlier one |
| StoredSecrets.ScanIff | src/winonlinux/state_store.py:132-142 | the scan's verdict on a document depends on its keys and values and not on the order in which they are listed |
| StoredSecrets.SavedHasNoSecret | src/winonlinux/state_store.py:310-326 | along no path of what a successful save writes stands a Secret, a value under a key with a documented word, or a string that is a JWT, an opaque token or has one in it |
| StoredSecrets.RefusedHasSecret | src/winonlinux/state_store.py:310-322 | a refused document has one |
| StoredSecrets.SecretHasOrigin | src/winonlinux/state_store.py:281-292 | a secret in a migrated document was in the old one, or a step on the way made it of a document without one |
| StoredSecrets.LoadWritesNoSecret | src/winonlinux/state_store.py:268-272 | a migrating load, which does not scan, writes no secret if the old file has none and every step from its version up makes secret-free documents of secret-free ones |
| StoredSecrets.OldSecretIsRewritten | src/winonlinux/state_store.py:268-272 | an old file with a token and a step that changes nothing: the load writes a document that a save would refuse |
| StoredSecrets.StepMayLeak | src/winonlinux/state_store.py:268-272 | a file without a secret and one step that adds a token: the same |
| AtomicWrite.StepKeeps | src/winonlinux/state_store.py:328-347 | every step of every writer, failures and crashes included, keeps the invariant |
| AtomicWrite.TargetIsWhole | src/winonlinux/state_store.py:335-347 | at every moment the target holds the document it held at first or the whole document of a save that succeeded |
| AtomicWrite.OldOrNew | src/winonlinux/state_store.py:335-347 | while one document is saved, a failure or crash at any step leaves the old document or the new one, and no document only if there was none |
| AtomicWrite.OnlyReplaceChanges | src/winonlinux/state_store.py:341-347 | only the final rename changes the target, to that save's whole document |
| AtomicWrite.NothingLeftBehind | src/winonlinux/state_store.py:342-347 | without crashes and failing removals no temporary file outlives its writer |
| WebLauncher.QuoteRoundTrip | src/winonlinux/web_launcher.py:95-97 | percent-decoding undoes percent-encoding for all byte strings |
| WebLauncher.QuotedAs | src/winonlinux/web_launcher.py:95-97 | byte by byte: letters, digits, four marks and what the caller calls safe stand for themselves, any other byte is a percent sign and two capital hexadecimal digits |
| WebLauncher.PathsAsWritten | src/winonlinux/web_launcher.py:101-122 | the path of a launch URL is the documented base, the kind and the encoded identifiers |
| WebLauncher.BuiltAsWritten | src/winonlinux/web_launcher.py:90-98 | a whole launch URL as written: path, tenant in the query, hint in the fragment, each only if there is one |
| WebLauncher.HintIsLast | src/winonlinux/web_launcher.py:90-98 | the fragment is the last component and everything before it is the same for every hint |
| WebLauncher.BuildRoundTrip | src/winonlinux/web_launcher.py:101-122 | splitting and decoding a built URL gives back the identifiers, the tenant and the hint, empty counting as absent |
| WebLauncher.BuildIsInjective | src/winonlinux/web_launcher.py:101-122 | two built URLs are equal exactly when the launch, the tenant and the hint are; Cloud PC and desktop URLs never collide |
| WebLauncher.SurvivesDotRemovalIff | src/winonlinux/web_launcher.py:107-119 | a browser's dot-segment removal keeps the path exactly if no identifier is a dot or two dots |
| WebLauncher.IssuedUrlIsKept | src/winonlinux/web_launcher.py:203-207 | an issued URL's path, query and own fragment are never touched, and a hint added to it can be read back |
| WebLauncher.TenantOfIff | src/winonlinux/web_launcher.py:81-87 | a tenant is read from an account id exactly when the id is two non-empty dotless halves around one dot |

## Left out

- SingleFlight.Begin: a sign-in becomes a task when its code exchange asks for the serializer; its browser round trip, which touches no shared state, is left out. A re-authentication's is in.
- SingleFlightResults.SignOutEndsWith: MSAL's removal of an account either returns or raises; a `Failure` in answer to it stands for the latter.
- Accounts.AuthManager.AddAccount: where the account id comes from when MSAL's claims lack one is not modelled.
- SingleFlightInvariant.StepKeeps: lock waiters are not ordered and an await of a future that is already cancelled takes a step of its own; both allow more interleavings than asyncio does.
- LoopbackRuns.StepKeeps: `close` is not modelled; connections may arrive at any time after start. Reading a request line and parsing its query are an oracle.
- Redaction.RedactStage: over ASCII text without NUL, since the pattern's word boundary is Unicode-aware; the authorization-header, JWT, UPN and `.rdpw` patterns are other stages and stand as the uninterpreted function `redact` of `StructuredValues`.
- StructuredValues.RefusedIff: the JWT patterns are an uninterpreted predicate; paths are sequences of steps and not their rendering as text; key names are lower-cased over ASCII.
- StructuredValues.RedactionKeepsShape: a named tuple, whose rebuilding fails in the original, counts as a tuple.
- RetryAfter.HeaderRoundTrip: over ASCII; rounding of integers beyond 2^53 to a float is not modelled, and no wait depends on it.
- GraphClient.RequestJson: response bodies and their summaries, log lines and the bearer header are not modelled; splitting the URL is an oracle.
- CloudPcProvider.FetchAll: the fields of an entry are a type parameter; the item is only known to be well formed or not. Result listeners are left out.
- CloudPcActions.ActionService.EndPost: user-facing texts are left out, as is the admin-capability cache, which only reads token claims.
- TaskRegistry.Registry.CreateTask: the argument is a coroutine; a task handed in by its creator, which would be tracked twice, is not modelled.
- StateStore.SaveThenLoad: the JSON library is assumed to read back what it wrote; tuples and non-string keys, which JSON changes, are outside that assumption. The secret scan is a parameter here; `StoredSecrets` puts the scan of `StructuredValues` in its place.
- AtomicWrite.TargetIsWhole: takes a synced file to survive a crash and a rename to be atomic.
- WebLauncher.IssuedUrlIsKept: which hosts an issued URL may name, and the request that fetches it, are not modelled.
- WebLauncher.BuildRoundTrip: identifiers are given as UTF-8 bytes; encoding text to bytes is not modelled.
- MSAL, the keyring, the HTTP library, the browser and sockets: oracles with arbitrary answers.
- Real time: the listener's deadline is a step that may happen at any moment, and the poll interval is not modelled.
- `asyncio_bridge.py`, the user interface and application wiring, `freerdp_probe.py`, `ui_models.py`, `method_prefs.py`, `avd_bookmarks.py`, the keyring health check and the JWT claim decoding: glue, lookup tables or platform code.
