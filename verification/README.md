# A verified model of the relay and its coordinator

This project models the parts of the repository that have to be right under crashes, races and
hostile traffic, and proves in Dafny what they are for. To verify: `dafny verify dfyconfig.toml`.

| part of the system | files |
|---|---|
| at-most-once delivery of a coordinator's effect, with crashes between any two durable steps, any number of hosts, watch directories and dispatch ids | `HostProtocol.dfy` (the steps), `HostSafety.dfy` (every reachable state), `HostWatchState.dfy` (what the stored watch states are), `HostReceipt.dfy` (which dispatch a receipt finalizes), `WatchHost.dfy` (the host itself, imperative) |
| the dispatch registry: marker files that can be torn, beside the in-memory form | `DispatchRegistry.dfy` |
| the watch evaluator and the planner under it, over whole observation sequences | `Watch.dfy`, `Coordinator.dfy` |
| the OAuth service, operation by operation: registration, consent, codes, rotation, revocation, cleanup, save and restart | `OAuth.dfy` (what each operation does), `OAuthRuns.dfy` (runs), `OAuthStore.dfy` (the file), `OAuthRegistered.dfy`, `OAuthCleanup.dfy`, `OAuthProvenance.dfy`, `OAuthFamilies.dfy`, `OAuthHistory.dfy`, `OAuthTokens.dfy` (what each operation keeps), `OAuthAnswers.dfy` (what each answer means), `OAuthFlow.dfy` (what is granted), `OAuthService.dfy` (the object with its tables, imperative) |
| the OAuth service with any number of owner's decisions open at once, each taken apart at its lock releases | `SplitDecision.dfy` (the machine, and where its tokens come from), `OAuthRefused.dfy` (what is refused for good), `OAuthRedirects.dfy` (where it sends people), `PendingCapacity.dfy` (the caps on pending requests), `LostClients.dfy` (what becomes of a client meanwhile), `Throttled.dfy` (with the three rate limiters in place), `OAuthExamples.dfy`, `SplitExamples.dfy` (runs from the start that reach the failures) |
| the sliding-window rate limiter | `SlidingWindow.dfy` |
| admission of parallel work and the paths it compares | `Paths.dfy`, `PathsUnder.dfy` (what the overlap test sees), `Admission.dfy` |
| the bounded projection of a work packet | `Projection.dfy`, `ProjectionShown.dfy` (what it shows) |

Code that changes state in place is modelled in place: `DispatchRegistry.MarkerRegistry`, `WatchHost.Host`,
`OAuthService.Service`, `OAuthStore.DurableStore` and `SlidingWindow.Limiter` are classes whose methods follow the
source statement by statement, and each method is proved to do exactly what a function or a step relation on
values says. The theorems about runs are proved of those functions and steps. Pure code is modelled by functions.

How the two halves of the OAuth part meet: every method of `OAuthService.Service` ensures
`Outcome(St(), reply) == F(old(St()), ...)` for one of the functions `F` of `OAuth.dfy`, and `OAuthRuns.Perform` is
made of exactly these functions, so a sequence of method calls is a run. `OAuthService.Service.Valid` asks no more
than `OAuthRuns.StepStaysReadable` keeps. The owner's decision is three methods, `TakeRequest`, `DecideRequest` and
`StoreCode`, one for each region under the lock, and each ensures its move of `SplitDecision.dfy`. Every state reached
with decisions in one piece is reached by such moves too (`SplitDecision.ReachableIsHallReachable`), so what is proved
of interleaved decisions holds of both.

What the functions of `OAuth.dfy` compute is said once more, in terms of the tables and the request alone, in
`OAuthAnswers.dfy`: for registration, consent, code exchange (`ExchangeMeans`, `ExchangeGives`), rotation
(`RotationMeans`, `RotationGives`), revocation, validation (`ValidationMeans`), eviction, saving and restart, exactly when
each answer is given and what it leaves. `OAuthStore.LoadMeans` does so for reading the file. Those of them that follow
from the functions without a proof have no row below.

## Assumptions

- The clock does not go back, and one operation reads it once. Tokens, codes, client ids and request ids are fresh
  names; hashes and the S256 digest are injective. Attempt ids of the host need not be fresh.
- Replacing a file is atomic; creating a marker and then writing it is not, nor is truncating and rewriting it. A lock
  dies with its process.
- Collected facts, the answer of the worker gate, the outcome of a send, the owner's decision and the outcome of a save
  are arbitrary inputs of the operation that uses them; so are the answers of the rate limiters, except in
  `Throttled.dfy`, where they are what the limiters answer.

## What was found on the way

- `RetryBudgetNotifiesTheOwner`: the owner is told within budget + 1 observations, but exactly once only if
  exhaustion, once supplied, is not taken back by a later, smaller supplied retry count;
  `RetractedRetryCountNotifiesTwice` gives a sequence where it is told twice. The repository's own collector always
  supplies zero, and then it is once (`CollectorStreakNotifiesOnce`).
- `CanonicalTwice`: putting an owned path in canonical form a second time changes it exactly when the first result has
  white space at an end or a colon in second place, as for `./ a` and `./c:x`. The overlap test makes paths canonical
  twice, so it can miss a path under another, as `a /b` under `a /.`. `MissesIffShortened` says for which paths: those
  whose last segment, without the white space in front of the path, ends in white space and is another name without it.
  White space behind a path is not enough: `a/ ` loses its last segment and is still seen over everything under it
  (`SpaceCanBeHarmless`). A hidden drive letter is refused the second time, and then so is the admission
  (`SecondFormRefused`).
- `BoundIsReached`: with decisions open meanwhile, the 32 pending requests can become 32 + K and the 4 of one client
  4 + K, for every number K of decisions open at once, and stay so when none is open any more; more than that they never
  are (`SplitCaps`). The caps hold over a run exactly if it never puts a request back into a full table, nor one of the
  client's own when the client has four (`CapsHoldIff`). With decisions in one piece they always hold (`AlwaysBounded`).
- `CodeForGoneClient`: a request that has been taken out no longer protects its client, so a registration can evict the
  client while the owner decides, and the code then stored names nobody and is refused to everyone (`CodeForNobody`).
  `GoneWhileDeciding` says exactly when; with decisions in one piece it cannot happen (`NoMissingClient`).
- A refresh token that was revoked, rotated or refused for its scopes is not always refused from then on. It is good
  again exactly if the file still shows it unrevoked and a restart reads that file before the token expires and before
  any operation replaces it (`GoodAgainIff`). A revocation or rotation whose own save replaced the file settles it
  (`RevokedForGood`, `RotatedForGood`); a request refused for its scopes saves nothing, so a restart before the
  next write brings its token back (`RefusedScopeComesBack`), and so it does after a revocation whose save failed before
  the file was replaced (`LostRevocationComesBack`).
  `OneLiveEverywhere` holds nevertheless. Access tokens never come back (`AccessNeverComesBack`).
- A receipt left by an earlier run is completed with the dispatch id of the current request, not the one in the journal
  (`WatchHost.Host.FinishFromReceipt`). What is finalized is the dispatch of the one send if and only if the completing
  request carries the dispatch the journal names (`FinalizesWhatWasSentIff`); `AppliedCanConsumeAnother` is a run with
  two crashes in which it is another, and the dispatch that was sent stays reserved.
- The second bound check of `project_packet` and its final one can never fire (`BoundIsNeverExceeded`).

## Model

| member | source | states |
|---|---|---|
| HostSafety.AtMostOneSend | tools/coordinator_watch_host.py:843-970 | in every reachable state of any number of hosts, no two sends share a canonical watch directory or a dispatch id; a send implies the directory's journal is at SENDING or later and the dispatch is owned by that effect and attempt |
| HostSafety.AppliedMeansDeliveredOnce | tools/coordinator_watch_host.py:805-840 | an APPLIED ledger entry stands for exactly one send of that directory, delivered with a receipt, and a dispatch consumed by that effect and attempt |
| HostSafety.RunsMoveOnward | tools/coordinator_watch_host.py:771-788 | over any run, crashes included, journal phases only move up, a marker's owner stays, a consumed dispatch stays consumed, a send stays sent |
| HostSafety.LedgerNeverFills | tools/coordinator_watch_host.py:814-816 | each notification key occurs at most once in a reachable ledger, so there are at most nine entries and the 32-entry bound never trips |
| HostSafety.NineKeys | tools/coordinator_watch.py:58-68 | distinct notification keys of one directory number at most nine |
| HostSafety.ApplyKeepsInv | tools/coordinator_watch_host.py:843-970 | every step of every process, and a crash at any point, keeps the protocol's invariant |
| HostReceipt.FinalizesWhatWasSentIff | tools/coordinator_watch_host.py:880-889 | in every reachable state, a process that has finalized a dispatch did so for an effect delivered by exactly one send; the finalized dispatch is the sent one if and only if the completing request carries the dispatch the journal names |
| HostReceipt.AppliedCanConsumeAnother | tools/coordinator_watch_host.py:843-970 | for any typed observation and any two unused dispatches, a run from the start with two crashes that sends once with the one and records it applied by consuming the other, the sent one staying reserved |
| HostWatchState.WatchFilesAreEvaluatorRuns | tools/coordinator_watch_host.py:664-667 | every stored watch state is the evaluator's state after some sequence of observations of that directory |
| HostWatchState.ClosedFilesStay | tools/coordinator_watch_host.py:664-667 | a stored watch state that is CLOSED never changes again |
| WatchHost.Host.ReserveDispatch | tools/skills-contract.py:920-982 | reserving is a run of marker steps; it answers as the registry does, and a fresh id becomes the caller's |
| WatchHost.Host.FinalizeDispatch | tools/skills-contract.py:985-1051 | finalizing is a run of marker steps; success leaves the id consumed by the caller's effect and attempt |
| WatchHost.Host.RecordAppliedAction | tools/coordinator_watch_host.py:805-840 | the ledger gains the APPLIED entry once, then the watch state is stored; the journal is left alone |
| WatchHost.Host.FinishFromReceipt | tools/coordinator_watch_host.py:880-889 | from a durable receipt, with finalize available and the dispatch owned by that attempt, the action ends DELIVERED and nothing is sent |
| WatchHost.Host.SendOnce | tools/coordinator_watch_host.py:915-970 | at most one send, whose outcome is made durable as RECEIPT or AMBIGUOUS before anything else |
| WatchHost.Host.ExecuteAuthorized | tools/coordinator_watch_host.py:843-970 | what the journal holds decides: an unknown outcome is never resent, a foreign intent turns ambiguous, an own receipt is completed without a send; an effect goes out exactly from a clean start or an own intent, through a delivery boundary that is there, with a dispatch that can be reserved, and without the boundary nothing is written |
| WatchHost.Host.FinishTyped | tools/coordinator_watch_host.py:973-1090 | an UNKNOWN entry blocks, an APPLIED entry gives DEDUP without a send, each refusal of the request or the gate has its answer and changes nothing, and an effect goes out exactly for a proper request that the gate allows and that can be sent |
| WatchHost.Host.RunLocked | tools/coordinator_watch_host.py:1152-1220 | one run under the lock is a run of protocol steps; a rerun after APPLIED with the watch state lost gives DEDUP, a rerun from a receipt completes it, an untyped result, another branch or a failed reconciliation sends nothing, and an effect goes out exactly for a reconciled typed result, a proper request, an allowing gate and a boundary that is there |
| WatchHost.ReconcileMeans | tools/coordinator_watch_host.py:414-437 | when a second collection confirms the first, and what each refusal says |
| WatchHost.FollowingIsARun | tools/coordinator_watch_host.py:843-970 | the steps an imperative method takes form a run of the protocol |
| DispatchRegistry.MarkerRegistry.ConsumeOnce | tools/skills-contract.py:873-917 | the files and the answer after a one-time consumption, torn when the write is lost |
| DispatchRegistry.MarkerRegistry.Reserve | tools/skills-contract.py:920-982 | the files and the answer after a reservation |
| DispatchRegistry.MarkerRegistry.Finalize | tools/skills-contract.py:985-1051 | the files and the answer after finalizing |
| DispatchRegistry.MemoryRegistry.Reserve | tools/skills-contract.py:920-961 | the in-memory rows and the answer after a reservation |
| DispatchRegistry.MarkersRefineMemory | tools/skills-contract.py:826-1051 | over every call sequence in which no write and no answer is lost, marker files and the in-memory registry give the same answers |
| DispatchRegistry.RegistriesAgreeFromStart | tools/skills-contract.py:826-1051 | the same from an empty directory beside an empty table |
| DispatchRegistry.LostAnswerKeepsRecord | tools/skills-contract.py:862-1051 | a call whose record was written but whose sync failed leaves the files as if it had answered, and answers unavailable or what it would have |
| DispatchRegistry.CallsOnlyMoveOnward | tools/skills-contract.py:920-1051 | over any calls and lost writes, an owner stays, consumed never becomes reserved, torn stays torn |
| DispatchRegistry.TakenForGood | tools/skills-contract.py:826-857 | an id once taken, whole or torn, is never newly reserved or consumed again, and only its owner finalizes it |
| DispatchRegistry.OneGrantPerToken | tools/skills-contract.py:873-1051 | in any sequence of calls, in any weather, a dispatch id is newly reserved or consumed at most once |
| DispatchRegistry.AnswersMean | tools/skills-contract.py:873-1051 | when each answer is given while the directory is there and nothing is lost |
| DispatchRegistry.CallLeaves | tools/skills-contract.py:873-1051 | what each answer leaves in the file of the id, and that no other file changes |
| DispatchRegistry.LostWriteTears | tools/skills-contract.py:898-1051 | exactly which lost writes leave a torn file |
| Coordinator.MergeReadyMeansEveryGateForOneHead | tools/coordinator.py:601-669 | MERGE_READY needs checks, review and every gate to be good for one and the same head |
| Coordinator.PlanIsCalledFor | tools/coordinator.py:572-775 | each of the fifteen decisions is given if and only if the facts call for it, by a table of situations that does not follow the planner's order |
| Watch.RetryBudgetNotifiesTheOwner | tools/coordinator_watch.py:314-346 | in a streak of transient failures within budget b at first, the owner is notified by observation b+1, and exactly once if and only if supplied exhaustion is not taken back |
| Watch.RetractedRetryCountNotifiesTwice | tools/coordinator_watch.py:566-595 | a streak in which the owner is notified twice |
| Watch.CollectorStreakNotifiesOnce | tools/coordinator_watch.py:566-595 | with supplied counts of zero the owner is notified exactly once |
| Watch.StepKeepsReachable | tools/coordinator_watch.py:349-408 | every stored state stays within the shape the loader accepts, over any observation |
| Watch.ResultIsEarned | tools/coordinator_watch.py:523-800 | each of the seven results is given if and only if it is earned, and exactly the refused observations are rejected |
| Watch.ResultSpeaks | tools/coordinator_watch.py:523-800 | exactly what is sent, and when the watch is looked at again |
| Watch.TakenIn | tools/coordinator_watch.py:349-408 | the whole state an accepted observation leaves |
| Watch.LeftAlone | tools/coordinator_watch.py:480-530 | every other one leaves the state alone, or closes an outdated watch under its old identity |
| Watch.WaitingIsQuiet | tools/coordinator_watch.py:655-678 | deciding to wait gives a quiet recheck, 300 to 3600 seconds later, and the watch stays open |
| Watch.ClosedIsAbsorbing | tools/coordinator_watch.py:742-789 | CLOSED is a fixed point under every sequence of observations |
| Watch.AcceptedTimeIsMonotone | tools/coordinator_watch.py:297-311 | over any run that ends OPEN, accepted time never went back |
| Watch.RechecksAreBounded | tools/coordinator_watch.py:325-340 | every scheduled recheck is 300 to 3600 seconds after its observation |
| Watch.UnchangedWaitsDouble | tools/coordinator_watch.py:325-340 | unchanged rechecks double up to the cap, over any number of them |
| Watch.OneWakePerDecision | tools/coordinator_watch.py:411-477 | while a decision stays the same it wakes the coordinator once |
| SplitDecision.MoveSound | relay/oauth.py:721-911 | every operation, failed save, restart and part of a decision keeps every token and every held request accounted for |
| SplitDecision.ReachableIsHallReachable | relay/oauth.py:721-783 | every state reached with decisions in one piece is reached by their parts |
| SplitDecision.BearerIsAccountedFor | relay/oauth.py:721-932 | however decisions are interleaved, an accepted bearer token goes back through rotations, scopes never widening, to one exchange with the verifier of the approved challenge, and to one approved request of the same client, redirect and resource |
| SplitDecision.OneCodePerRequest | relay/oauth.py:730-783 | no request gives two codes, and none that gave one is pending or held, however often requests are taken out and put back |
| SplitDecision.OneLinePerCode | relay/oauth.py:793-829 | no code roots two token pairs |
| SplitDecision.HeldOnce | relay/oauth.py:730-731 | no request is with two threads, or pending while it is held |
| SplitDecision.OneLiveEverywhere | relay/oauth.py:831-892 | of the refresh tokens that go back to one code at most one is unrevoked, in memory and on disk, however decisions are interleaved |
| SplitDecision.AcceptanceIsEarned | relay/oauth.py:747-767 | a request that is accepted was decided on in the run: approved, with the right secret and unthrottled |
| SplitDecision.ApprovalIsEarned | relay/oauth.py:747-782 | every approval in the history of a run goes back to such a decision on that very request |
| SplitDecision.ExchangeIsEarned | relay/oauth.py:793-829 | every exchange in the history goes back to an operation of the run that showed an outstanding, unexpired code with its verifier, client, redirect and resource (section 4.1.2 of RFC 6749, section 4.6 of RFC 7636, section 2 of RFC 8707) |
| SplitDecision.TokenIsEarned | relay/oauth.py:831-892 | every refresh token goes back to an operation of the run that exchanged its code or rotated its predecessor, which was unrevoked, unexpired and shown by its own client (section 6 of RFC 6749) |
| SplitDecision.SpentForGood | relay/oauth.py:799-810 | a code exchanged once is never good again in any continuation |
| SplitDecision.ConsentIsNeverDisplaced | relay/oauth.py:667-693 | only taking it out to decide on it, its expiry or a restart removes a pending request |
| SplitDecision.RefreshClientIsThere | relay/oauth.py:361-369 | every refresh token, in memory and on disk, names a registered client, so a refresh request that passes its checks never finds the client gone |
| OAuthRefused.GoodAgainIff | relay/oauth.py:238-253 | over any continuation, a refresh token that is not good is good again if and only if the file shows it unrevoked and some restart reads that file before the token expires and before any operation replaces the file |
| OAuthRefused.RevokedForGood | relay/oauth.py:894-911 | after a revocation with any hint and any outcome of its save, exactly that condition decides; if its save replaced the file, the token is never good again |
| OAuthRefused.RotatedForGood | relay/oauth.py:831-862 | after a rotation, also one refused for its scopes, the same; a refusal or a save that failed before replacing the file leaves the file as it was |
| OAuthRefused.AccessNeverComesBack | relay/oauth.py:913-932 | an access token that is revoked, expired or lost in a restart is refused in every continuation |
| OAuthRefused.RevokedAccessForGood | relay/oauth.py:894-932 | so is every revoked access token, whether or not the save succeeds |
| OAuthRefused.SavedTokenStaysGood | relay/oauth.py:389-427 | a live refresh token that was saved stays in the file and in memory, over any cleanups, failed saves and restarts, until it expires or is itself revoked or shown for rotation |
| OAuthExamples.RefusedScopeComesBack | relay/oauth.py:847-853 | a run from the start: a request refused for its scopes has revoked its token, and a restart makes it good again |
| OAuthExamples.LostRevocationComesBack | relay/oauth.py:894-911 | a run from the start: a revocation whose save failed is undone by a restart |
| OAuthRedirects.RedirectsAreRegistered | relay/oauth.py:633-693 | in every run, decisions interleaved, each redirect of a client, of a pending or held request and of an approval was registered by that client in the run, and is safe; the client may be gone |
| OAuthRedirects.CodesGoWhereRegistered | relay/oauth.py:769-820 | so was the redirect of every outstanding code and every exchange |
| OAuthAnswers.RegisterMeans | relay/oauth.py:489-600 | when each answer to a registration is given, with the redirects, methods, grants and response types that are accepted (section 3.2 of RFC 7591) |
| OAuthAnswers.BeginMeans | relay/oauth.py:611-693 | consent is asked for exactly for a proper request of a registered client with one of its own redirects, unthrottled and with room; and when each refusal is given |
| OAuthAnswers.BeginLeaves | relay/oauth.py:651-693 | the page it opens, good for a minute, and that a refusal opens none |
| OAuthAnswers.RevocationMeans | relay/oauth.py:894-911 | whatever the hint, exactly the token shown is revoked |
| OAuthAnswers.EvictionMeans | relay/oauth.py:345-427 | whom a registration evicts, by times, ids and the two budgets |
| OAuthAnswers.RestartMeans | relay/oauth.py:238-298 | what a restart leaves in every table |
| OAuthFlow.ProperFlowIsGranted | relay/oauth.py:611-932 | a proper request, approved and exchanged in time, gives a token that is accepted for the scopes asked for, and its code is refused the second time |
| OAuthFamilies.AlwaysOneLive | relay/oauth.py:831-892 | of the refresh tokens that go back to one code at most one is unrevoked, in memory and on disk, in every reachable state |
| OAuthRegistered.AlwaysNamed | relay/oauth.py:361-369 | every refresh token, in memory and on disk, and every unexpired pending request names a registered client |
| OAuthRegistered.NoMissingClient | relay/oauth.py:765-767 | a good refresh token or approved request never names a client that is gone |
| OAuthCleanup.AlwaysBounded | relay/oauth.py:492-591 | at most 64 clients in memory and on disk, restart included, 32 pending requests, 4 of one client |
| OAuthCleanup.InactiveAfterRegistration | relay/oauth.py:500-530 | right after a registration at most 16 clients are inactive |
| OAuthCleanup.TakesExactly | relay/oauth.py:378-427 | a cleanup takes a client if and only if it is evictable and stale, or evictable with fewer older evictable ones, by issue time, last use and id, than the budgets are exceeded by |
| OAuthCleanup.OneCleanup | relay/oauth.py:389-427 | there is only one way to clean up |
| OAuthCleanup.RegistrationEvictsExactly | relay/oauth.py:489-541 | an unthrottled registration, successful or not, costs exactly these clients their place |
| OAuthCleanup.CleaningStopsInTime | relay/oauth.py:412-426 | a cleanup ends with both budgets met or nobody left to evict |
| OAuthCleanup.CleaningIsLazy | relay/oauth.py:412-426 | while the budgets are met without, only stale clients are evicted |
| OAuthCleanup.RefusedOnlyWhenFull | relay/oauth.py:508-541 | registration is refused for room only when every client that counts is protected |
| OAuthStore.LoadUndoesDump | relay/oauth.py:255-343 | loading gives back exactly what was saved if and only if every client is stored under its id with non-empty lists and a last use that is not zero, or was issued at zero |
| OAuthRuns.RestartNeverLosesState | relay/oauth.py:238-343 | in every reachable state the file, and the state that would be saved now, read back as they are |
| OAuthRuns.StepStaysReadable | relay/oauth.py:576-591 | every operation keeps the clients well formed |
| OAuthStore.DurableStore.Save | relay/oauth_state.py:87-133 | whichever step fails, the file is the old or the new one, the caller is told, no descriptor stays open and no temporary file unless its removal fails too |
| OAuthStore.DurableStore.LoadFile | relay/oauth_state.py:57-85 | a missing file is an empty state, a damaged or too open one is refused |
| OAuthService.Service.Persist | relay/oauth.py:300-343 | refresh tokens expired and revoked are dropped, then the file is replaced or not |
| OAuthService.Service.CleanupInactiveClients | relay/oauth.py:389-427 | the two loops end, and take away every stale client and then exactly as many of the oldest others as the budgets are exceeded by |
| OAuthService.Service.RegisterClient | relay/oauth.py:489-600 | registration as specified, error order included (section 3 of RFC 7591) |
| OAuthService.Service.BeginAuthorization | relay/oauth.py:611-693 | an authorization request as specified, error order included |
| OAuthService.Service.TakeRequest | relay/oauth.py:730-733 | the request is taken out under the lock, and refused if it is unknown or expired: the move of taking |
| OAuthService.Service.DecideRequest | relay/oauth.py:747-767 | denied, put back, or accepted with the client's last use set: the move of deciding |
| OAuthService.Service.StoreCode | relay/oauth.py:769-783 | the code stored and the state saved: the move of storing |
| OAuthService.Service.CompleteAuthorization | relay/oauth.py:721-783 | the three in a row are the decision in one piece |
| OAuthService.Service.ExchangeAuthorizationCode | relay/oauth.py:793-829 | the code exchange as specified, the code being used up first |
| OAuthService.Service.ExchangeRefreshToken | relay/oauth.py:831-862 | rotation as specified, the old token being revoked before the scope is looked at |
| OAuthService.Service.IssueTokens | relay/oauth.py:864-892 | a new pair in memory, then a save whose failure is reported |
| OAuthService.Service.RevokeToken | relay/oauth.py:894-911 | revocation as specified; an unknown token is no error (section 2 of RFC 7009) |
| OAuthService.Service.ValidateBearer | relay/oauth.py:913-932 | a bearer token is accepted as specified, error order included |
| OAuthService.Service.Start | relay/oauth.py:238-253 | the state after a restart, with the cleanup it saves at once |
| PendingCapacity.MoveCaps | relay/oauth.py:730-762 | one move from within the caps breaks them if and only if it puts a request back into a full table, or one of the client's own when the client has four |
| PendingCapacity.CapsHoldIff | relay/oauth.py:667-762 | over whole runs: every state is within the caps if and only if no move does that |
| PendingCapacity.SplitCaps | relay/oauth.py:721-783 | pending and held requests together exceed the caps by no more than the number of decisions open at once |
| SplitExamples.BoundIsReached | relay/oauth.py:667-762 | for every number of decisions open at once, a run from the start that ends with both caps exceeded by that many and none open |
| PendingCapacity.ClientCapHolds | relay/oauth.py:489-541 | at most 64 clients in memory and in the file, however decisions are interleaved |
| LostClients.GoneWhileDeciding | relay/oauth.py:355-427 | while a client's request is held, and up to any later point without a restart, the client is gone if and only if some unthrottled registration evicts it, at a point where no live refresh token and no other open page protects it and it is stale or within the excess |
| SplitExamples.CodeForGoneClient | relay/oauth.py:721-783 | a run from the start, one decision open at a time, that ends with a code naming no registered client |
| Throttled.RatesHold | relay/oauth.py:222-236 | over any interleaving, since the last start no window saw more than 8 registrations, 16 consent pages or 5 wrong owner secrets of a source that was never evicted |
| Throttled.LogsAreTrue | relay/oauth.py:489-762 | what the limiters count is exactly the clients entered, the pages opened and the secrets found wrong |
| Throttled.LimitedExactly | relay/oauth.py:493-755 | a source that was never evicted is refused exactly when the log of the last window has 8 registrations, 16 pages or 5 wrong secrets of it |
| SlidingWindow.RateIsLimited | relay/oauth.py:157-207 | over any run of asking and noting, no closed interval of the window's length holds more than max_events of a source that was never evicted |
| SlidingWindow.AnswersByTheLog | relay/oauth.py:177-187 | after any run a refused source has max_events in the window by the full log, an unevicted source is refused exactly then, and the table is within its bound |
| SlidingWindow.Limiter.Allow | relay/oauth.py:177-187 | the asking step: only the source's own bucket is pruned |
| SlidingWindow.Limiter.Record | relay/oauth.py:189-207 | the noting step: all buckets are swept, and a new source that finds no room takes the place of the earliest |
| SlidingWindow.Limiter.SweepExpired | relay/oauth.py:170-175 | sweeping bucket by bucket is pruning the whole table |
| Paths.NormalizePath | tools/work_admission.py:108-132 | the loop computes the canonical form, or refuses |
| Paths.CanonicalTwice | tools/work_admission.py:108-132 | a second canonical form equals the first if and only if the first is tidy |
| PathsUnder.RefusedIff | tools/work_admission.py:108-132 | a path is refused exactly if it is empty, absolute, leads above the root on the way, or leads nowhere |
| Paths.HiddenDrive | tools/work_admission.py:117-118 | a drive letter hidden behind `./` is refused the second time only |
| Paths.HiddenSpace | tools/work_admission.py:115-131 | white space hidden behind `./` is lost the second time |
| Paths.OverlapIsNesting | tools/work_admission.py:149-156 | the test on texts is segment prefix, either way, of the canonical paths |
| Paths.OverlapOfTidy | tools/work_admission.py:149-156 | for tidy stored paths it is segment prefix of the stored paths |
| PathsUnder.CanonicalIff | tools/work_admission.py:108-132 | the stored paths are exactly the ones of non-empty segments other than `.` and `..`, without backslashes |
| PathsUnder.MissesIffShortened | tools/work_admission.py:149-156 | for a stored path with a second canonical form, some stored path at or under it is missed by the overlap test if and only if that form shortens its last segment to another name |
| PathsUnder.OverlapCanBeMissed | tools/work_admission.py:149-156 | such a path is missed over every path under it, of any depth, that does not end in white space |
| PathsUnder.SeesUnder | tools/work_admission.py:149-156 | any other is seen over everything under it that has a second canonical form |
| PathsUnder.UnderStaysUnder | tools/work_admission.py:108-132 | without white space behind, a path under another is read the second time as the same way down from the other's second form |
| PathsUnder.SecondFormRefused | tools/work_admission.py:117-118 | without white space at either end, the second form is refused exactly for a drive letter |
| PathsUnder.RefusedUnder | tools/work_admission.py:119-131 | under a path that has a second form, the test gives no answer exactly for a last segment read as `..` right below a single name |
| PathsUnder.SpaceCanBeHarmless | tools/work_admission.py:115-131 | a path whose last segment is only white space loses it and is not shortened in this sense |
| Admission.EvaluateAdmit | tools/work_admission.py:260-421 | the loops compute the admission decision, in the source's order of refusals |
| Admission.AdmitMeans | tools/work_admission.py:260-421 | a claim is admitted if and only if it and the host are fit, the books are in order, there is room, and it is independent of every active claim |
| Admission.AdmitRefusals | tools/work_admission.py:260-421 | why a claim is refused, ending with the first active claim it is not independent of |
| Admission.RefusalMeans | tools/work_admission.py:298-421 | what each refusal says of one other claim, down to the first pair of clashing paths |
| Admission.ActiveClaimsAreIndependent | tools/work_admission.py:260-421 | after any run of admissions, reports and releases, active claims stay within wip_limit and are pairwise independent |
| Admission.OwnedPathsAreDisjoint | tools/work_admission.py:298-421 | of independent claims of one repository, a path of one is at or under a path of the other only where the second canonical form shortens the upper one |
| Admission.ReleaseAnswers | tools/work_admission.py:483-549 | when each answer to a release or a cleanup is given |
| Projection.ProjectPacket | tools/context_epoch.py:272-336 | the loops compute the projection |
| Projection.BoundIsNeverExceeded | tools/context_epoch.py:272-336 | for every packet and legal caps the final bound error is never hit |
| ProjectionShown.AnswersMean | tools/context_epoch.py:272-311 | a projection is rendered exactly if the caps are legal, nothing blocks the packet, and its header and required sections fit; otherwise which error it is |
| ProjectionShown.RenderedIs | tools/context_epoch.py:287-336 | what is rendered, line by line: metadata, audit, required sections, as many optional sections as there is room for, and markers for exactly what was clipped or left out |
| ProjectionShown.OptionalShownIff | tools/context_epoch.py:313-325 | an optional section of the packet is shown if and only if it fits with all before it |
| Projection.RequiredSectionsAreShown | tools/context_epoch.py:235-236 | a rendered projection contains every required section, clipped at most to a share of at least 256 |
| Projection.TailFits | tools/context_epoch.py:326-333 | the longest tail takes 403 of the 512 characters reserved |

## Left out

- Files, permissions, symbolic links, `flock`, `fsync` and partial writes of one `write` call: only atomic replace,
  exclusive create, torn markers, an answer lost after its record was written, and a lock that dies with its process are modelled.
- The `reason` and notification texts, report formatting, the `kind` field and receipt text of the journal, and audit
  events: content that no decision reads.
- JSON parsing and shape validation of facts, packets, claims and requests: the models start from typed values. An
  identifier that is only compared for equality is a name.
- The worker adapter's classification and signature checks: a gate that answers allow, deny, replay, stale or blocked.
- The fact collector and the sending of a write or notice: arbitrary facts and outcomes.
- HTTP handling, consent HTML, metadata documents, `www_authenticate`, the proxy and configuration.
- The `used` flag and the `subject` of tokens: always the same value while a record is in a table.
- The order of scopes and of client lists in the stored file: a set and a map.
- `canonicalize_worktree` and `evaluate_size`: a worktree is a name, and the sizing rule is one decision table.
- `parse_packet`, and all of `analyze_packet` but the required-section checks: the remaining blocking reasons and the
  two report lines are inputs of the projection.
- OAuthRegistered.AlwaysNamed: speaks of decisions in one piece; with decisions interleaved a put-back request can
  name a client that is gone, and `LostClients.dfy` says when.
- OAuthCleanup.AlwaysBounded: speaks of decisions in one piece; `PendingCapacity.dfy` treats them interleaved.
- Throttled.RatesHold: speaks of the time since the last start, because a restart forgets the limiters' counts.
- SlidingWindow.RateIsLimited: speaks of sources that were never evicted for lack of room, because an evicted source
  starts again with an empty bucket.
- Watch.AcceptedTimeIsMonotone: speaks of OPEN states, because a stale close skips the check for older observations.
- Admission.ActiveClaimsAreIndependent: takes existing claims as parsed once; a claim that is no longer active does not
  become active again.
