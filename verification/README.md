# Verified model of the recruitment backend

A Dafny model of the places in the backend where the guarantees live in runs, loops and clocks,
with proofs of what those guarantees are. `dafny verify dfyconfig.toml` checks the whole project.

One nondecreasing clock counts microseconds (`Wrappers.dfy`, module `Clock`); JWT claims and
denylist cutoffs truncate it to seconds. Service calls are atomic steps. Code that updates rows or
dictionaries is a class whose methods are proved equal to a function on the state; the theorems are
about those functions and every run of them. The `...Answers` files say, call by call and without the
functions' own definitions, which answer a call gets and which columns it stores.

- `LoginThrottle.dfy`, `RedisThrottle.dfy`, `TokenDenylist.dfy`: the two auto-expiring stores, each with
  its in-memory and its Redis form.
- `Session.dfy`, `SessionSafety.dfy`, `SessionTheorems.dfy`, `SessionAnswers.dfy`, `SessionFlows.dfy`,
  `SessionThrottle.dfy`, `SessionWitnesses.dfy`, `AuthServices.dfy`: the credential machine, its invariant,
  which credentials can ever be accepted again, the throttle's bounds for the service, and the service itself.
  `iat` and `exp` are those of sections 4.1.6 and 4.1.4 of RFC 7519.
- `MenuForest.dfy`: the menu forest built from parent links that may form cycles.
- `Interviews.dfy`, `InterviewAnswers.dfy`: the interviewers' calendar and the offer/confirm protocol.
- `Applications.dfy`, `ApplicationAnswers.dfy`, `ProcessStages.dfy`, `StageAnswers.dfy`, `StageBackfill.dfy`: the Kanban board, the stage tables it
  depends on, and the migration that shifts them under a non-deferrable unique index.
- `Consents.dfy`: the append-only consent log.
- `Rbac.dfy`, `RbacBootstrap.dfy`, `BootstrapServices.dfy`, `UserRoles.dfy`: grants, the idempotent
  bootstrap, and role replacement.
- `CvRecords.dfy`, `CvAnswers.dfy`, `DocumentVersions.dfy`: CV record normalising and merging, document numbering.

## Where the code and its own words differ

The model follows the code.

- `auth_service.py:236-241` says a replayed refresh token kills the whole family. The request that
  does so raises, so its row revocations are rolled back and only the denylist marker stays
  (`SessionTheorems.ReplayCommits`; a run in `SessionWitnesses.ReplayLeavesFamilyAlive`).
- `interviews_service.py:122` does not look at bookings when a patch only changes the status, so a
  cancelled booking can be revived onto an hour given away meanwhile
  (`Interviews.RevivalDoubleBooks`, with the exact condition in `Interviews.UpdateKeepsDisjointIff`).
- `processes_service.py:19-22` reserves order 9999 for the hired stage so that it sorts last; a
  custom stage may take a larger one, when it is added or when it is updated
  (`ProcessStages.HiredStageLastIff`, with a run in `ProcessStages.UpdateOvertakesHired`).
- `processes_service.py:104-118` looks for active duplicates of a name, and the table's constraint covers
  deleted processes too (`models.py:79-85`). Creating a process under the name of a deleted one passes the
  look-up and fails at the insert, for good (`ProcessStages.CreationAnswers`,
  `ProcessStages.NameStaysTaken`, `ProcessStages.DeletedNameIsRefused`).
- `bootstrap_service.py:312-314` promises exactly the allowlist; with no matching permission the
  procedure returns before revoking (`Rbac.GrantsAreExactIff`). Inside a bootstrap this cannot
  happen.
- `applications_service.py:160-167` describes a resurrected application as starting clean; its old
  rejection reason stays (`Applications.ResurrectionRestarts`).
- A status sent by hand may contradict the stage, in a patch or when staff create the application; the exact
  condition over runs is `Applications.ConsistentThroughoutIff`, and the examples are
  `Applications.StaffCreatesHired` and `Applications.PatchSetsHired`.

## Model

| member | source | states |
|---|---|---|
| `LoginThrottle.FailuresFromFirst` | app/core/login_throttle.py:69-91 | over every trace of attempts on any emails in which neither a success nor a password reset clears this email's counter, unverified logins included, at most 5 * (T / 900 + 1) failures of it are recorded in the T seconds from the first, both ends included |
| `LoginThrottle.FailuresInAnyWindow` | app/core/login_throttle.py:69-91 | in the same traces no half-open 900-second interval, wherever it starts, holds more than 8 recorded failures of one email |
| `LoginThrottle.FromFirstIsReached` | app/core/login_throttle.py:69-91 | the bound is exact: for every number of windows k some trace records 5 * (k + 1) failures within k windows of the first |
| `LoginThrottle.EightIsReached` | app/core/login_throttle.py:69-91 | the sliding bound is exact: some trace records 8 failures within one half-open window |
| `LoginThrottle.NineSpanAWindow` | app/core/login_throttle.py:80-91 | in every chain of windows opening and locking for at least `span` seconds, any nine consecutive failures span at least that long |
| `LoginThrottle.WindowsPassed` | app/core/login_throttle.py:80-91 | in such a chain the j-th failure comes at least q spans after the first, with j + 1 at most 5q plus its rank in its own window |
| `LoginThrottle.NextOpening` | app/core/login_throttle.py:80-91 | in such a chain the next window opens within the ranks left, at least a span after the last opening, and after a lock at least a span after the last failure |
| `LoginThrottle.RecordedAsChain` | app/core/login_throttle.py:69-91 | every trace that never clears explains its failures as a chain of windows of at most five, and the store agrees with the end of that chain |
| `LoginThrottle.WaitingEndsTheLock` | app/core/login_throttle.py:69-78 | whatever logins are tried on any email before the lock runs out, with no password reset of this one, the account is open once the reported number of seconds has passed |
| `LoginThrottle.WaitIsTight` | app/core/login_throttle.py:69-78 | the reported wait is the remaining lock rounded up: a second less ends before the lock does, or exactly with it |
| `LoginThrottle.ResetRestartsTheLock` | app/core/login_throttle.py:69-96 | with a reset the wait starts again: a lock is lifted, five failures set a new one, and the first wait no longer suffices |
| `RedisThrottle.VerdictsRelate` | app/core/login_throttle.py:60-128 | after the same calls, on any clock: the server reports a lock exactly when the in-memory throttle reports at least two seconds, and then one second less |
| `RedisThrottle.SameVerdict` | app/core/login_throttle.py:60-128 | on a clock of whole seconds both throttles give the same locked or unlocked verdict after the same calls; the in-memory one reports exactly one second more |
| `RedisThrottle.StepsAgree` | app/core/login_throttle.py:60-128 | every call keeps the two stores in agreement on live counters and live locks, on any clock |
| `RedisThrottle.RedisFailures` | app/core/login_throttle.py:108-122 | over every trace that never clears: on any clock at most 5 * (T / 899 + 1) failures from the first and 8 in any half-open 899 seconds; when attempts fall on whole seconds, the same with 900 |
| `RedisThrottle.RedisRecordedAsChain` | app/core/login_throttle.py:108-122 | every such trace explains the failures the server records as a chain of windows, and the store agrees with its end |
| `RedisThrottle.TenInFifteenMinutes` | app/core/login_throttle.py:108-122 | off the whole second the bound with 900 fails on the server: five failures at 0 and five at 899.5 s are all recorded |
| `LoginThrottle.InMemoryLoginThrottle.LockedFor` | app/core/login_throttle.py:69-78 | reports the wait and drops a lock that has run out, nothing else |
| `LoginThrottle.InMemoryLoginThrottle.RecordFailure` | app/core/login_throttle.py:80-91 | opens or continues the failure window and locks on the fifth failure; other emails untouched |
| `LoginThrottle.InMemoryLoginThrottle.Reset` | app/core/login_throttle.py:93-96 | the email is open at every instant and its next failure starts a new count; every other email keeps its verdicts |
| `SessionThrottle.WrongAnswersFromFirst` | app/modules/auth/application/auth_service.py:197-221 | over every run of service requests in which nothing clears the email's counter, from any state in which it has none: at most 5 * (T / 900 + 1) of its logins are answered with wrong credentials in the T seconds from the first such answer |
| `SessionThrottle.WrongAnswersInAnyWindow` | app/modules/auth/application/auth_service.py:197-221 | in the same runs at most 8 such answers fall into any half-open 900 seconds |
| `SessionThrottle.RequestIsAttempt` | app/modules/auth/application/auth_service.py:197-221 | every request of the service changes the throttle as the attempt it reports does, and is answered with wrong credentials exactly when that attempt records a failure |
| `SessionThrottle.RunIsTrace` | app/modules/auth/application/auth_service.py:197-221 | the answers a run gives to one email are the failures recorded by a trace of attempts on it |
| `SessionThrottle.FreshAfterClearing` | app/modules/auth/application/auth_service.py:214-215 | a successful login without a lock and a completed password reset leave no counter and no lock |
| `TokenDenylist.SameVerdict` | app/core/token_denylist.py:41-75 | deleting expired markers while reading never changes a verdict: after the same calls both denylists refuse exactly the same tokens |
| `TokenDenylist.InMemoryTokenDenylist.RevokeUser` | app/core/token_denylist.py:45-46 | until the deadline exactly the user's tokens issued up to the current second are refused; other users' verdicts stay |
| `TokenDenylist.InMemoryTokenDenylist.IsUserRevoked` | app/core/token_denylist.py:48-57 | refuses a token issued at or before a live marker, the marker's own second included, and drops only that user's marker once expired |
| `SessionTheorems.RevokedForever` | app/modules/auth/application/auth_service.py:423-457 | after a successful password change, reset or deactivation in any reachable state, no access token the user then held is accepted again in any later run, although markers are dropped lazily or overwritten |
| `SessionTheorems.InactiveHasNoSession` | app/core/dependencies.py:31-65 | in every reachable state an inactive user has no live refresh token and no token that authenticates, across every login, refresh, deactivation and reactivation, though authentication never reads the user row |
| `SessionTheorems.LaterTokensSurvive` | app/core/token_denylist.py:45-57 | an access token of a later second than its user's last marker is accepted exactly until it expires, over every run that does not mark the user again |
| `SessionTheorems.RotatedOnce` | app/modules/auth/application/auth_service.py:223-251 | a refresh token that was rotated is never rotated again in any run |
| `SessionTheorems.ReuseMeansRevoked` | app/modules/auth/application/auth_service.py:223-247 | a presentable refresh token always has a row; reuse detection fires exactly when that row is revoked, never by expiry, and the missing-user branch is never taken |
| `SessionTheorems.ReplayCommits` | app/modules/auth/application/auth_service.py:234-243 | a replay ends every session inside the service, but the request rolls back: live refresh rows stay as they were and only the marker refuses the user's access tokens |
| `SessionWitnesses.ReplayLeavesFamilyAlive` | app/modules/auth/application/auth_service.py:234-243 | sign-up, login, rotation and a replay of the rotated token: the refresh token it was rotated into is still live |
| `SessionTheorems.LiveTokensBounded` | app/modules/auth/infrastructure/repository.py:32-61 | over every run a user's live refresh tokens never outnumber the successful logins since all their sessions were last ended |
| `SessionTheorems.PasswordChangeKillsResetTokens` | app/core/security.py:67-88 | once any request has changed a user's password hash, no reset token minted before it succeeds in any later run |
| `SessionTheorems.ResetTokenOnce` | app/modules/auth/application/auth_service.py:471-505 | a reset token succeeds at most once in any run |
| `SessionTheorems.EndingCalls` | app/modules/auth/application/auth_service.py:171-180 | a successful password change, reset or switch-off sets the user's marker and revokes exactly their live rows; a failing one does neither; none hands out a session |
| `SessionTheorems.RefreshGains` | app/modules/auth/application/auth_service.py:245-251 | refresh is one out, one in: the presented token leaves the live set and at most the new one joins it |
| `SessionFlows.LoggedOutNeverRefreshes` | app/modules/auth/application/auth_service.py:253-256 | after a logout the presented token is never rotated again in any later run, whatever it was |
| `SessionFlows.FreshLoginIsAccepted` | app/core/token_denylist.py:45-57 | a login's access token is accepted at once if and only if the user's sessions were not ended in the very same second |
| `SessionWitnesses.LoginInTheSecondOfAChange` | app/core/token_denylist.py:45-57 | sign-up, password change and login in one second: the login succeeds and its access token is refused |
| `SessionFlows.PortalsNeverMissing` | app/modules/auth/application/auth_service.py:258-263 | an account that exists never fails to log in or refresh for want of its portal |
| `SessionFlows.LoginAfterReset` | app/modules/auth/application/auth_service.py:496-505 | right after a reset, locked or not, a login of the verified user that passes the anti-bot gate succeeds exactly with the new password |
| `SessionFlows.WhoLogsIn` | app/modules/auth/application/auth_service.py:182-217 | in every reachable state a login that passes the gate and meets no lock is granted exactly when some verified, active account has that email and password, and then opens a session of that account, with its portal and pending change |
| `SessionFlows.SignUpThenLogin` | app/modules/auth/application/auth_service.py:295-410 | register under a new email, receive the link, verify, log in: the login is refused as unverified before and granted as that account after |
| `SessionAnswers.LoginAnswers` | app/modules/auth/application/auth_service.py:182-217 | which answer a login gets: captcha, lock with its wait, wrong credentials, unverified or tokens, each if and only if |
| `SessionAnswers.LoginOpens` | app/modules/auth/application/auth_service.py:204-217 | whose tokens a login hands out: those of the verified account with that email and password; both tokens and the row name it, only its time of login changes, other rows and markers stay |
| `SessionAnswers.LoginAuthenticatesItself` | app/core/dependencies.py:31-65 | in any later state whoever is authenticated by the access token of a login is the account whose email and password were presented |
| `SessionAnswers.RefreshOpens` | app/modules/auth/application/auth_service.py:223-251 | a refresh is granted exactly for an unexpired refresh token with a live row of an active user, and opens a session of that very user in exchange for the row |
| `SessionAnswers.RefreshAuthenticatesItself` | app/core/dependencies.py:31-65 | the access token of a refresh authenticates the user of the presented refresh token and nobody else |
| `SessionAnswers.AuthenticatedAs` | app/core/dependencies.py:31-65 | a request is authenticated as a user exactly when its token is an unexpired access token of that user that no live marker covers |
| `SessionAnswers.LogoutDoes` | app/modules/auth/application/auth_service.py:253-256 | a logout revokes the presented token's live row and changes nothing else |
| `SessionAnswers.ChangePasswordDoes` | app/modules/auth/application/auth_service.py:436-457 | a change needs the current password and a different new one, sets exactly the new password and ends the pending change; otherwise nothing changes |
| `SessionAnswers.ResetPasswordDoes` | app/modules/auth/application/auth_service.py:471-505 | a reset needs an unexpired reset token minted against the password of today; other accounts' locks stay |
| `SessionAnswers.EndingWrites` | app/modules/auth/application/auth_service.py:171-180 | ending a user's sessions revokes every live row of theirs now, and their marker covers this second and lasts for the access lifetime and a minute |
| `SessionAnswers.EndingSparesOthers` | app/modules/auth/application/auth_service.py:171-180 | ending one user's sessions leaves everyone else's rows and marker as they were |
| `SessionAnswers.ReplaySparesOthers` | app/modules/auth/application/auth_service.py:234-243 | a replay marks the user the token names and nobody else |
| `SessionAnswers.DeactivateDoes` | app/modules/auth/application/auth_service.py:423-434 | the account is off and otherwise unchanged, and no other account changes |
| `SessionAnswers.SetStatusDoes` | app/modules/auth/api/users_routes.py:229-290 | the account is as asked; the password is re-hashed exactly for a user switched on who never used the first one; nobody switches themselves off |
| `SessionAnswers.RegisterNew` | app/modules/auth/application/auth_service.py:368-410 | an unknown email becomes one active, unverified candidate with the password and the candidate role |
| `SessionAnswers.RegisterKnown` | app/modules/auth/application/auth_service.py:328-366 | a closed candidate account gets the new password and stays closed, an unfinished sign-up is left alone, any other account is a conflict |
| `SessionAnswers.CreateStaffDoes` | app/modules/auth/api/users_routes.py:139-221 | a staff account is verified, must change its password and has the role asked for, which must be active |
| `SessionAnswers.InstallAdminDoes` | app/modules/auth/application/bootstrap_service.py:402-417 | a new admin account is verified, active and keeps its password; an existing one is left alone |
| `SessionAnswers.VerifyEmailDoes` | app/modules/auth/application/auth_service.py:507-543 | a link works exactly for an unexpired verification token of an account that is not both active and verified, and makes it both |
| `SessionAnswers.LinksDo` | app/modules/auth/api/auth_routes.py:73-170 | links name the user they were asked for; a reset link carries the password of today and lasts an hour |
| `SessionSafety.CoverSurvives` | app/modules/auth/application/auth_service.py:171-180 | a marker outlives every token it covers, so dropping it late or replacing it by a later one never lets such a token through again |
| `SessionSafety.EndedHasNoSession` | app/modules/auth/application/auth_service.py:423-434 | ending a user's sessions leaves no live refresh row and no uncovered access token |
| `SessionSafety.RequestKeeps` | app/core/database.py:25-36 | every request, committed or rolled back, keeps the global invariant and never un-revokes, un-expires or un-covers a credential |
| `SessionSafety.RunKeeps` | app/core/database.py:25-36 | the same over every run of requests and clock ticks |
| `AuthServices.RefreshTokenRepository.RevokeAllByUserId` | app/modules/auth/infrastructure/repository.py:48-61 | the loop revokes exactly the live rows of the user |
| `AuthServices.AuthService.RevokeAccessTokens` | app/modules/auth/application/auth_service.py:171-180 | the marker lives for the access-token lifetime plus sixty seconds |
| `AuthServices.AuthService.GetByEmail` | app/modules/auth/infrastructure/repository.py:14-25 | finds only active users, by normalised address |
| `AuthServices.AuthService.Login` | app/modules/auth/application/auth_service.py:182-217 | anti-bot gate, then the throttle, then the credentials; only wrong credentials count as failures, an unverified email neither counts nor resets |
| `AuthServices.AuthService.Refresh` | app/modules/auth/application/auth_service.py:223-251 | rotates a live row or treats the token as replayed |
| `AuthServices.AuthService.Logout` | app/modules/auth/application/auth_service.py:253-256 | revokes a live row, succeeds silently otherwise |
| `AuthServices.AuthService.IssueTokens` | app/modules/auth/application/auth_service.py:265-293 | one access token, one refresh token and its row, whose deadline is no earlier than the token's own; nothing when the portal row is missing |
| `AuthServices.AuthService.RegisterCandidate` | app/modules/auth/application/auth_service.py:295-410 | new account with the candidate role, returning candidate kept off with a fresh password, unfinished sign-up left alone, conflict, or missing seed rows |
| `AuthServices.AuthService.CreateStaff` | app/modules/auth/api/users_routes.py:139-221 | the role must be active and the email new; staff accounts are born verified and must change their password |
| `AuthServices.AuthService.InstallAdmin` | app/modules/auth/application/bootstrap_service.py:402-417 | the bootstrap's account: an existing one is left as it is, a new one is verified, active and keeps its password |
| `AuthServices.AuthService.VerifyEmail` | app/modules/auth/application/auth_service.py:507-543 | switches a returning user on or verifies a new one; a used link is refused |
| `AuthServices.AuthService.SendResetLink` | app/modules/auth/api/auth_routes.py:161-170 | a reset token carries the fingerprint of the password at mint time |
| `AuthServices.AuthService.ChangePassword` | app/modules/auth/application/auth_service.py:436-457 | checks, re-hashes, clears the pending change and ends all sessions |
| `AuthServices.AuthService.ResetPassword` | app/modules/auth/application/auth_service.py:471-505 | refuses a stale fingerprint; on success ends all sessions and lifts the login lock |
| `AuthServices.AuthService.DeactivateUser` | app/modules/auth/application/auth_service.py:423-434 | switches an active user off and ends their sessions in every case |
| `AuthServices.AuthService.UpdateUserStatus` | app/modules/auth/api/users_routes.py:229-290 | self-deactivation refused; switching off ends all sessions; a reactivation may re-hash the password |
| `AuthServices.AuthService.GetCurrentUser` | app/core/dependencies.py:31-65 | accepts exactly an unexpired access token that no live marker covers |
| `AuthServices.AuthService.Handle` | app/core/database.py:25-36 | database writes of a failing request are undone while denylist and throttle keep theirs; the global invariant holds on and no revoked, expired or covered credential comes back |
| `MenuForest.AppearsOnceIffGrounded` | app/modules/auth/application/menu_items_service.py:119-144 | for every list with unique ids, parent cycles included, an item appears in the forest exactly once if its parent chain ends at a parentless item inside the list, and not at all otherwise |
| `MenuForest.BuildTree` | app/modules/auth/application/menu_items_service.py:119-144 | terminates on every such list; counts as above, and every node carries its item and exactly its listed children in input order |
| `MenuForest.GetMenuForUser` | app/modules/auth/application/menu_items_service.py:89-98 | an item is shown, once, exactly when it and every ancestor up to a root are allowed for the user |
| `MenuForest.ForestMirrors` | app/modules/auth/application/menu_items_service.py:134-144 | every node at every depth has exactly its listed children, in input order |
| `MenuForest.ListedInOrder` | app/modules/auth/application/menu_items_service.py:123-132 | siblings are exactly the items with that parent, in input order |
| `MenuForest.VisibleInOrder` | app/modules/auth/application/menu_items_service.py:92-97 | a user sees exactly the items open to everyone or unlocked by a permission, in input order |
| `MenuForest.UniquePath` | app/modules/auth/application/menu_items_service.py:119-144 | two root paths to one item are the same path |
| `MenuForest.PathShort` | app/modules/auth/application/menu_items_service.py:119-144 | no root path repeats an item, which bounds the recursion |
| `MenuForest.CountBelow` | app/modules/auth/application/menu_items_service.py:134-144 | an item is counted once below a node exactly when the node lies on its root path |
| `MenuForest.Sort` | app/modules/auth/application/menu_items_service.py:123-132 | the first loop splits the items into roots and children by parent, in input order |
| `MenuForest.Filter` | app/modules/auth/application/menu_items_service.py:89-98 | keeps exactly the items open to everyone or unlocked by a permission, in order |
| `Interviews.DisjointThroughoutIff` | app/modules/recruitment/application/interviews_service.py:80-133 | over every run of creates, invitations, updates, confirmations, deletions and cancellations, no two bookings of one interviewer ever overlap if and only if no cancelled booking is revived, unchecked, onto a window given away meanwhile |
| `Interviews.StepKeepsDisjointIff` | app/modules/recruitment/application/interviews_service.py:80-133 | one call of any kind breaks disjointness exactly when it is such a revival |
| `Interviews.RunKeepsDisjoint` | app/modules/recruitment/application/interviews_service.py:80-133 | in particular over every run in which no update leaves the cancelled status without sending a time or an interviewer |
| `Interviews.UpdateKeepsDisjointIff` | app/modules/recruitment/application/interviews_service.py:112-129 | an accepted update keeps bookings disjoint if and only if it is not an unchecked revival onto a window that has been given away |
| `Interviews.RevivalDoubleBooks` | app/modules/recruitment/application/interviews_service.py:112-129 | from the empty calendar: book, cancel, book the hour again, restore the first status; the interviewer is double-booked |
| `Interviews.CreateAcceptsIffDisjoint` | app/modules/recruitment/application/interviews_service.py:80-110 | a well-formed interview not born cancelled is accepted exactly when adding it leaves the calendar disjoint |
| `Interviews.ConfirmAcceptsIffDisjoint` | app/modules/recruitment/application/interviews_service.py:300-383 | an open offer is confirmed for an offered future slot exactly when booking it leaves the calendar disjoint |
| `Interviews.NoSharedInstant` | app/modules/recruitment/application/interviews_service.py:443-482 | disjointness in terms of time: two bookings of one interviewer share no instant |
| `Interviews.ListedIffAccepted` | app/modules/recruitment/application/interviews_service.py:202-298 | an interview is listed to a candidate exactly when it would be accepted for that user at that time |
| `Interviews.ConfirmedTimeWasOffered` | app/modules/recruitment/application/interviews_service.py:300-383 | a confirmed time equals an offered slot, is not in the past, and the offer was listed |
| `Interviews.ConfirmedOnce` | app/modules/recruitment/application/interviews_service.py:300-383 | without an HR update of it, an offer is confirmed at most once in any run |
| `InterviewAnswers.UpdateStores` | app/modules/recruitment/application/interviews_service.py:112-129 | an accepted update stores each column sent, keeps the others, and touches no other row |
| `InterviewAnswers.UpdateAcceptsIffDisjoint` | app/modules/recruitment/application/interviews_service.py:112-129 | a rescheduling in order, of an interview not cancelled, is accepted exactly when the calendar with the moved row is disjoint |
| `InterviewAnswers.UncheckedUpdateIsAccepted` | app/modules/recruitment/application/interviews_service.py:122 | a patch in order that sends neither a time nor an interviewer is always accepted |
| `InterviewAnswers.CreateStores` | app/modules/recruitment/application/interviews_service.py:80-110 | a creation stores what was sent, active, under the next id, after its references resolved |
| `InterviewAnswers.InvitedCandidateSeesTheOffer` | app/modules/recruitment/application/interviews_service.py:137-229 | an invitation is accepted exactly when everything it names exists; the candidate then sees it, with the slots sent, for seven days and not longer |
| `InterviewAnswers.InvitationLeadsToBooking` | app/modules/recruitment/application/interviews_service.py:137-383 | an invited candidate who picks an offered future slot within the week gets it exactly when the interviewer is free, and the booking is what they picked |
| `InterviewAnswers.OpenIsListedAndAccepted` | app/modules/recruitment/application/interviews_service.py:202-298 | listing and looking up an offer follow one rule: active, theirs, undecided and not expired |
| `InterviewAnswers.ConfirmStores` | app/modules/recruitment/application/interviews_service.py:300-383 | a confirmation stores the chosen slot, the confirmed status and the candidate as scheduler, and touches no other row |
| `InterviewAnswers.DeleteStores` | app/modules/recruitment/application/interviews_service.py:131-133 | a deletion switches an active row off and touches nothing else |
| `Interviews.InterviewService.Create` | app/modules/recruitment/application/interviews_service.py:80-110 | refuses unknown applications, stages, interviewers, statuses and schedulers, and double bookings; stores otherwise |
| `Interviews.InterviewService.CreateInvite` | app/modules/recruitment/application/interviews_service.py:137-200 | stores an invitation with its offered slots, the HR scheduler and no time of its own |
| `Interviews.InterviewService.Update` | app/modules/recruitment/application/interviews_service.py:112-129 | applies the patch, offered slots included; bookings are checked only when a time or the interviewer is sent, references whenever they are sent |
| `Interviews.InterviewService.Delete` | app/modules/recruitment/application/interviews_service.py:131-133 | switches the row off |
| `Interviews.InterviewService.GetOffer` | app/modules/recruitment/application/interviews_service.py:260-298 | the error for a missing, foreign, cancelled, decided or expired offer, or none |
| `Interviews.InterviewService.ConfirmSlot` | app/modules/recruitment/application/interviews_service.py:300-383 | loops over the offered slots and books the chosen one if it is offered, in the future and free |
| `Interviews.InterviewService.AssertNoDoubleBooking` | app/modules/recruitment/application/interviews_service.py:443-482 | free, double-booked, or a failed query when two rows conflict |
| `Applications.HiredIffOnFinalStage` | app/modules/recruitment/application/applications_service.py:230-307 | over every run whose statuses sent by hand fit, an active application ends up hired exactly when its current stage is final-positive |
| `Applications.ConsistentThroughoutIff` | app/modules/recruitment/application/applications_service.py:120-307 | over every run at all, active applications are hired exactly on final-positive stages in every state passed through, if and only if every accepted status sent by hand, at creation or in a patch, fits |
| `Applications.CreateKeepsConsistentIff` | app/modules/recruitment/application/applications_service.py:120-185 | a creation or resurrection keeps the equivalence if and only if the status it stores agrees with the first stage: staff may store any status |
| `Applications.StepKeepsConsistentIff` | app/modules/recruitment/application/applications_service.py:120-307 | one call of any kind keeps the equivalence exactly when its status fits |
| `Applications.PlainMovesFit` | app/modules/recruitment/application/applications_service.py:120-307 | when first stages are not final, every run that creates nothing as hired and moves without a status by hand fits |
| `Applications.StaffCreatesHired` | app/modules/recruitment/application/applications_service.py:120-185 | staff create an application as hired on the initial stage |
| `Applications.PatchSetsHired` | app/modules/recruitment/api/applications_schemas.py:24-34 | apply, then a patch sets the hired status on the initial stage |
| `Applications.RejectedOnAStage` | app/modules/recruitment/application/applications_service.py:271-301 | apply, be rejected, be moved back: on the initial stage again and still rejected |
| `Applications.ReasonSurvives` | app/modules/recruitment/application/applications_service.py:150-172 | apply, be rejected, withdraw, apply again: the new application carries the old reason |
| `Applications.UpdateKeepsConsistentIff` | app/modules/recruitment/application/applications_service.py:230-307 | an accepted update keeps that equivalence if and only if a status sent by hand fits the stage or is overruled by the matrix |
| `Applications.RejectedStaysRejected` | app/modules/recruitment/application/applications_service.py:271-301 | a rejected application leaves the rejected status by a move exactly when the new stage is final-positive |
| `Applications.AutoRejectSettles` | app/modules/recruitment/application/applications_service.py:345-377 | every active application of the vacancy ends hired and untouched, or rejected with its stage remembered; all other rows untouched |
| `Applications.AutoRejectTwiceIff` | app/modules/recruitment/application/applications_service.py:345-377 | a second call transitions nothing exactly when the rejected status is known or there was nothing to reject |
| `Applications.ResurrectionRestarts` | app/modules/recruitment/application/applications_service.py:120-185 | applying again reuses the row, restarts it at the first stage with the rejection mark, sub-status and analysis cleared; the old rejection reason survives |
| `ApplicationAnswers.UpdateStores` | app/modules/recruitment/application/applications_service.py:230-307 | an accepted update puts the application on the stage sent, remembers the stage a rejection takes it from and no other, clears the sub-status on a terminal move, and keeps identity, salary and analysis and every other row |
| `ApplicationAnswers.UpdateSetsStatus` | app/modules/recruitment/application/applications_service.py:271-301 | rejected off the board, hired on a hiring stage, active again when a hired application comes back, otherwise as sent or as it was |
| `ApplicationAnswers.MovesAreJustified` | app/modules/recruitment/application/applications_service.py:230-301 | a rejection by hand has a reason, and a move stays on active stages of the vacancy's own process |
| `ApplicationAnswers.PlainMoveIsAccepted` | app/modules/recruitment/application/applications_service.py:230-307 | a move to an active stage of the same process, sent alone, is always accepted and puts the application there |
| `ApplicationAnswers.StageFollowsMoves` | app/modules/recruitment/application/applications_service.py:120-377 | after every run an application stands where the last accepted call on it put it: on the stage sent, on none after a rejection, on the first after applying again |
| `ApplicationAnswers.CreateStores` | app/modules/recruitment/application/applications_service.py:120-185 | what a new or resurrected application holds, column by column, with its pair and every other row kept |
| `ApplicationAnswers.CreateAnswers` | app/modules/recruitment/application/applications_service.py:120-185 | which answer a creation gets: unknown reference, duplicate or success, each if and only if |
| `ApplicationAnswers.AutoRejectStores` | app/modules/recruitment/application/applications_service.py:345-377 | closing a vacancy rejects exactly its open active applications, with the reason given and the stage remembered, and reports exactly those |
| `ApplicationAnswers.DeleteStores` | app/modules/recruitment/application/applications_service.py:309-311 | a deletion switches an active row off and touches nothing else |
| `Applications.ApplicationService.FirstStageId` | app/modules/recruitment/application/applications_service.py:198-208 | the active stage of lowest order, if there is one |
| `Applications.ApplicationService.Create` | app/modules/recruitment/application/applications_service.py:120-185 | new row, resurrection of a withdrawn one, or a duplicate error |
| `Applications.ApplicationService.Update` | app/modules/recruitment/application/applications_service.py:230-307 | the transition matrix between open, hired and rejected |
| `Applications.ApplicationService.Delete` | app/modules/recruitment/application/applications_service.py:309-311 | switches the row off |
| `Applications.ApplicationService.AutoRejectForVacancy` | app/modules/recruitment/application/applications_service.py:345-377 | rejects each active application that is neither hired nor rejected and returns those |
| `ProcessStages.SeededStageComesFirst` | app/modules/org/application/processes_service.py:138-179 | for every process created and every later run of stage calls, active orders and stages stay pairwise distinct, both seeded stages stay active and unchanged, and the first stage is the seeded initial one |
| `ProcessStages.RunKeeps` | app/modules/org/application/process_stages_service.py:71-141 | unique orders and stages, and every backbone, survive every run |
| `ProcessStages.AddedStageKeepsFinalLastIff` | app/modules/org/application/process_stages_service.py:88-100 | an add keeps the hired stage last if and only if it is not accepted with an order above 9999 into the process |
| `ProcessStages.UpdatedStageKeepsFinalLastIff` | app/modules/org/application/process_stages_service.py:108-130 | an update keeps the hired stage last if and only if it is not accepted with an order above 9999 in the process |
| `ProcessStages.StepKeepsFinalLastIff` | app/modules/org/application/process_stages_service.py:88-141 | one call of any kind: the hired stage stops being last exactly at an accepted add or update above 9999 |
| `ProcessStages.HiredStageLastIff` | app/modules/org/application/processes_service.py:19-22 | over every run after the creation of a process, the hired stage is last all along if and only if no accepted add or update carries a larger order into the process |
| `ProcessStages.UpdateOvertakesHired` | app/modules/org/application/process_stages_service.py:108-130 | create a process, add a stage at order 50, move it to 10,000: the hired stage is not last |
| `ProcessStages.LargeUpdateIsAccepted` | app/modules/org/api/process_stages_schemas.py:19 | every custom stage accepts an update to some order above 9999, as long as the table is not full |
| `ProcessStages.LargeOrderIsAccepted` | app/modules/org/api/process_stages_schemas.py:9 | some order above 9999 is accepted in every active process with an unused stage parameter, as long as the table is not full |
| `ProcessStages.UpdateStageKeeps` | app/modules/org/application/process_stages_service.py:108-130 | an update of a custom stage keeps orders and stages unique |
| `ProcessStages.RunKeepsKeys` | app/modules/org/infrastructure/models.py:79-85 | over every run no two processes, active or inactive, share company, department and name |
| `ProcessStages.CreationAnswers` | app/modules/org/application/processes_service.py:120-131 | with known references a creation is answered with a duplicate if and only if an active process has the key, fails on the constraint if and only if an inactive one has it, and otherwise succeeds as soon as the backbone is seeded |
| `ProcessStages.UpdateAnswers` | app/modules/org/application/processes_service.py:181-200 | the same for an update and the key it would end up with, another process understood; a patch that sends no part of the key never fails that way |
| `ProcessStages.NameStaysTaken` | app/modules/org/application/processes_service.py:202-208 | deleting a process never frees its name: over every later run in which it is not renamed, creating another of the name is refused, by the failing insert as long as it stays deleted |
| `ProcessStages.DeletedNameIsRefused` | app/modules/org/application/processes_service.py:120-131 | create, delete, create again: the look-up finds no duplicate and the insert fails |
| `StageAnswers.CreateProcessStores` | app/modules/org/application/processes_service.py:120-179 | a process is stored as sent, active, with exactly its two seeded stages |
| `StageAnswers.UpdateProcessStores` | app/modules/org/application/processes_service.py:181-200 | an update stores what was sent and keeps the rest |
| `StageAnswers.DeleteProcessStores` | app/modules/org/application/processes_service.py:202-208 | a deletion switches an unused process off and nothing else |
| `StageAnswers.AddStageStores` | app/modules/org/application/process_stages_service.py:88-100 | an accepted stage is stored as sent: custom, active, with its parameter, order and flag |
| `StageAnswers.AddStageAnswers` | app/modules/org/application/process_stages_service.py:60-100 | which answer an add gets: unknown process or parameter, taken stage, order out of range, taken order or success, each if and only if |
| `StageAnswers.AddAcceptsIffUnique` | app/modules/org/application/process_stages_service.py:71-100 | an add with known references and an order in range is accepted exactly when the table with the new row has distinct orders and stages |
| `StageAnswers.UpdateStageStores` | app/modules/org/application/process_stages_service.py:108-130 | an update stores what was sent on a custom stage and keeps the rest |
| `StageAnswers.UpdateAcceptsIffUnique` | app/modules/org/application/process_stages_service.py:71-130 | an update of a custom stage in order is accepted exactly when the changed table has distinct orders and stages |
| `StageAnswers.DeleteStageStores` | app/modules/org/application/process_stages_service.py:132-141 | which answer a deletion gets, and that it switches only that stage off |
| `ProcessStages.ProcessStageService.CreateProcess` | app/modules/org/application/processes_service.py:120-179 | checks company, department and active duplicates, then inserts the process, which the constraint may refuse, and its two protected stages |
| `ProcessStages.ProcessStageService.DeleteProcess` | app/modules/org/application/processes_service.py:202-208 | switches an unused process off; the lookup includes inactive ones, so deleting again succeeds |
| `ProcessStages.DeleteTwice` | app/modules/org/application/processes_service.py:92-96 | a deletion can be repeated and then changes nothing |
| `ProcessStages.ProcessStageService.UpdateProcess` | app/modules/org/application/processes_service.py:181-200 | references and active duplicates are checked only when sent; the constraint covers the result in any case |
| `ProcessStages.ProcessStageService.AssertUnique` | app/modules/org/application/process_stages_service.py:71-86 | free exactly when no other active stage of the process has the stage or the order; an order beyond four bytes is refused |
| `ProcessStages.ProcessStageService.AddStage` | app/modules/org/application/process_stages_service.py:88-100 | inserts a stage only after both uniqueness checks |
| `ProcessStages.ProcessStageService.UpdateStage` | app/modules/org/application/process_stages_service.py:108-130 | protected stages refuse every update; others are checked again without themselves |
| `ProcessStages.ProcessStageService.DeleteStage` | app/modules/org/application/process_stages_service.py:132-141 | protected and used stages stay |
| `StageBackfill.DanceIsSafeIff` | alembic/versions/b8c9d0e1f2a3_add_is_initial_to_process_stages.py:101-112 | the two-phase shift never violates the unique index or the column's range, in any row order, if and only if no two orders of the process lie exactly 1,000,000 or exactly 999,999 apart and none is above 2,146,483,647 |
| `StageBackfill.SmallSpreadIsSafe` | alembic/versions/b8c9d0e1f2a3_add_is_initial_to_process_stages.py:101-112 | orders spread by less than 999,999 qualify whenever the column has room for them |
| `StageBackfill.CriticalPairCollides` | alembic/versions/b8c9d0e1f2a3_add_is_initial_to_process_stages.py:107-112 | a pair 999,999 apart collides when the wrong row comes down first |
| `StageBackfill.LargeOrderFails` | alembic/versions/b8c9d0e1f2a3_add_is_initial_to_process_stages.py:101-105 | an order above 2,146,483,647 overflows on its way up, whatever the gaps are |
| `StageBackfill.SinglePassCollides` | alembic/versions/b8c9d0e1f2a3_add_is_initial_to_process_stages.py:101-112 | raising two neighbouring orders by one in a single pass violates the index part-way |
| `StageBackfill.BackfilledIsFirst` | alembic/versions/b8c9d0e1f2a3_add_is_initial_to_process_stages.py:101-118 | each active order rises by exactly one, slot 1 is free for the new initial stage, and it comes first |
| `StageBackfill.Migration.Shift` | alembic/versions/b8c9d0e1f2a3_add_is_initial_to_process_stages.py:101-112 | row by row, with the table accepting every intermediate state, the whole process moves by the offset |
| `StageBackfill.Migration.BackfillProcess` | alembic/versions/b8c9d0e1f2a3_add_is_initial_to_process_stages.py:101-118 | both shifts and the insert |
| `StageBackfill.Migration.Upgrade` | alembic/versions/b8c9d0e1f2a3_add_is_initial_to_process_stages.py:89-119 | afterwards no active process lacks the stage, processes that had it are untouched, and a second run changes nothing |
| `Consents.LogIsSound` | app/modules/auth/infrastructure/consents_repository.py:42-116 | over every run: one active row at most per user and kind, the log only grows, rows are never un-revoked, what was decided stays decided, and everyone who registered holds exactly one active terms row |
| `Consents.PutDoesAsAsked` | app/modules/auth/api/consents_routes.py:39-79 | every marketing PUT ends with subscribed as requested and decided true, touches no other kind, and appends a row unless it ends a subscription |
| `Consents.RegisterFacts` | app/modules/auth/application/auth_service.py:395-410 | registration grants terms, and marketing only when the box was ticked |
| `Consents.GrantedFacts` | app/modules/auth/infrastructure/consents_repository.py:42-69 | a grant ends with exactly one active row whatever was there |
| `Consents.GrantWrites` | app/modules/auth/infrastructure/consents_repository.py:42-69 | the old active row gets the instant and the source of its end, and the new one its own |
| `Consents.RevokeWrites` | app/modules/auth/infrastructure/consents_repository.py:98-116 | exactly the active row of that user and kind gets the instant and the source |
| `Consents.PutWrites` | app/modules/auth/api/consents_routes.py:39-79 | which rows a marketing PUT writes, by the request and by what was active |
| `Consents.ClosingAndReturning` | app/modules/auth/api/auth_routes.py:445-479 | closing an account ends its marketing consent and no other; coming back renews the terms |
| `Consents.ConsentsRepository.Grant` | app/modules/auth/infrastructure/consents_repository.py:42-69 | revoke, then insert |
| `Consents.ConsentsRepository.RecordRefusal` | app/modules/auth/infrastructure/consents_repository.py:71-96 | the user has decided from then on, the log only grows, and nothing becomes active or inactive |
| `Consents.ConsentsRepository.Revoke` | app/modules/auth/infrastructure/consents_repository.py:98-116 | revokes the active row, reports whether there was one |
| `Consents.ConsentsRepository.Register` | app/modules/auth/application/auth_service.py:395-410 | the rows of a registration |
| `Consents.ConsentsRepository.UpdateMarketingConsent` | app/modules/auth/api/consents_routes.py:39-79 | grant, revoke or refusal, chosen by the request and the log |
| `RbacBootstrap.BootstrapSettles` | app/modules/auth/application/bootstrap_service.py:429-493 | from any state with unique codes and active role names, and a plan inside its catalog with the portal seeded, the bootstrap succeeds, settles every managed role, has the admin account with its role, and leaves all other roles, rows, accounts and links as they were |
| `RbacBootstrap.BootstrapIdempotent` | app/modules/auth/application/bootstrap_service.py:429-493 | a second bootstrap changes nothing at all |
| `RbacBootstrap.BootstrapNeeds` | app/modules/auth/application/bootstrap_service.py:429-440 | a bootstrap succeeds only with the portal seeded, no repeated code and at most one active role of the admin name |
| `RbacBootstrap.RoleLookUp` | app/modules/auth/application/bootstrap_service.py:268-275 | looking a role up fails exactly when two active roles have the name |
| `RbacBootstrap.ManagedRolesHoldTheirLists` | app/modules/auth/application/bootstrap_service.py:307-390 | afterwards the candidate role confers exactly its code list and each internal role exactly its code and type lists |
| `RbacBootstrap.SettledIsFixed` | app/modules/auth/application/bootstrap_service.py:429-493 | any settled state, however it came about, is a fixed point |
| `RbacBootstrap.SyncAll` | app/modules/auth/application/bootstrap_service.py:249-265 | after the sync every catalog code is present and active, ids and codes of old rows are kept, and only catalog rows changed |
| `RbacBootstrap.MatchedExactly` | app/modules/auth/application/bootstrap_service.py:318-325 | a code list inside the synced catalog matches exactly its own active permissions |
| `Rbac.GrantsAreExactIff` | app/modules/auth/application/bootstrap_service.py:307-343 | the procedure makes the role hold exactly the matching permissions if and only if something matches or the role held nothing, since with no match it returns before revoking; other roles confer what they did |
| `Rbac.GrantsByCode` | app/modules/auth/application/bootstrap_service.py:318-343 | when some permission of a listed code exists, active or not, the role ends with exactly the permissions of listed codes; otherwise nothing changes |
| `Rbac.EmptyMatchKeepsGrants` | app/modules/auth/application/bootstrap_service.py:318-325 | granting a list no permission matches leaves a role with the code it had |
| `Rbac.OneGrantIsReached` | app/modules/auth/application/bootstrap_service.py:249-343 | the state of that example is reached by a sync, a new role and one grant |
| `Rbac.TypesAreExact` | app/modules/auth/application/bootstrap_service.py:346-390 | the type list is always exact, an empty one revoking everything, and other roles keep theirs |
| `Rbac.EnsureRoleWorks` | app/modules/auth/application/bootstrap_service.py:268-275 | with unique active names the query never fails and leaves exactly one active role of the name |
| `Rbac.ManageAllWorks` | app/modules/auth/application/bootstrap_service.py:465-485 | the loop over internal roles settles each of them without disturbing the earlier ones or any unmanaged role |
| `BootstrapServices.BootstrapService.SyncPermissions` | app/modules/auth/application/bootstrap_service.py:249-265 | one upserted row per catalog entry; a repeated code fails the statement and changes nothing |
| `BootstrapServices.BootstrapService.EnsureRole` | app/modules/auth/application/bootstrap_service.py:268-275 | finds, creates, or fails on two active roles of the name |
| `BootstrapServices.BootstrapService.EnsureAdminUser` | app/modules/auth/application/bootstrap_service.py:402-417 | finds or inserts the account of the email and changes no other |
| `BootstrapServices.BootstrapService.GrantAllPermissionsToRole` | app/modules/auth/application/bootstrap_service.py:278-291 | the role then holds every active permission, and every other role confers what it did |
| `BootstrapServices.BootstrapService.GrantPermissionsToRole` | app/modules/auth/application/bootstrap_service.py:307-343 | the role's permissions are exactly the matching ones, or unchanged when nothing matches; every other role confers what it did |
| `BootstrapServices.BootstrapService.GrantParameterTypesToRole` | app/modules/auth/application/bootstrap_service.py:346-390 | the role's types are exactly the list, also when it is empty; other roles keep theirs |
| `BootstrapServices.BootstrapService.ManageInternal` | app/modules/auth/application/bootstrap_service.py:465-485 | the loop over internal roles |
| `BootstrapServices.BootstrapService.BootstrapAdmin` | app/modules/auth/application/bootstrap_service.py:429-493 | the whole procedure, admin account included, with nothing written when the portal is missing, a code repeats or a role query fails |
| `UserRoles.ReplacedRoleDecides` | app/modules/auth/application/user_roles_service.py:74-109 | replacing succeeds exactly for an active user and role; then that role alone decides codes and types, everyone else keeps theirs, and repeating it changes nothing |
| `UserRoles.ReplacedIntoManagedRole` | app/modules/auth/infrastructure/authorization_repository.py:23-61 | a user moved into a bootstrapped internal role has exactly its code and type lists |
| `UserRoles.RevokeUndoesAssign` | app/modules/auth/application/user_roles_service.py:49-117 | a granted assignment adds exactly the role's codes and revoking it restores codes and types |
| `UserRoles.AssignDoes` | app/modules/auth/application/user_roles_service.py:49-72 | an assignment is granted exactly to an active user for an active role they do not hold, and adds it to them alone |
| `UserRoles.RevokeDoes` | app/modules/auth/application/user_roles_service.py:111-117 | a revocation is granted exactly for a role the user holds, and takes it from them alone |
| `UserRoles.ExactlyOneRole` | app/modules/auth/application/user_roles_service.py:74-109 | a user who holds one role and is managed only by replacements holds exactly one after every run |
| `UserRoles.CodesThroughRoles` | app/modules/auth/infrastructure/authorization_repository.py:23-37 | a code is conferred exactly by some active role the user actively holds |
| `UserRoles.UserRolesService.AssignRole` | app/modules/auth/application/user_roles_service.py:49-72 | inserts or reactivates a link, refuses one that is active |
| `UserRoles.UserRolesService.ReplaceRole` | app/modules/auth/application/user_roles_service.py:74-109 | the loop over active links with its note of the new role leaves exactly that link on |
| `UserRoles.UserRolesService.RevokeRole` | app/modules/auth/application/user_roles_service.py:111-117 | switches an active link off |
| `CvRecords.NormaliseIdempotent` | app/modules/ai/application/cv_parse_service.py:123-173 | normalising a normalised record changes nothing, for every JSON object |
| `CvRecords.MergeAssociative` | app/modules/ai/application/cv_parse_service.py:248-259 | for every three objects both groupings fail together or give the same dictionary |
| `CvRecords.MergeAbsorbs` | app/modules/ai/application/cv_parse_service.py:248-259 | merging the same focused record again changes nothing |
| `CvRecords.MergedLists` | app/modules/ai/application/cv_parse_service.py:256-258 | the merge succeeds exactly when no truthy list or object sits in a skill or tool list; each merged list is the ordered union of both inputs by first truthy occurrence, with no key twice |
| `CvAnswers.FocusedSectionsWin` | app/modules/ai/application/cv_parse_service.py:253-255 | the focused record wins every section in which it found something, the primary one fills the rest |
| `CvAnswers.ExperienceReads` | app/modules/ai/application/cv_parse_service.py:132-143 | the texts of an experience are read from the first of their aliases that holds something |
| `CvAnswers.ExperienceReadsLists` | app/modules/ai/application/cv_parse_service.py:141-142 | its functions and tools likewise |
| `CvAnswers.CertificationReads` | app/modules/ai/application/cv_parse_service.py:145-154 | the same for certifications |
| `CvAnswers.ProjectReads` | app/modules/ai/application/cv_parse_service.py:156-164 | the same for projects |
| `CvAnswers.CanonicalKeys` | app/modules/ai/application/cv_parse_service.py:132-164 | an item has exactly the columns of its kind |
| `CvAnswers.ItemsAreTheObjects` | app/modules/ai/application/cv_parse_service.py:132-164 | a section keeps every object of its list, in order and in canonical form, and nothing else |
| `CvAnswers.SectionsRead` | app/modules/ai/application/cv_parse_service.py:128-130 | sections are the objects of the first alias that holds something |
| `CvAnswers.ListsRead` | app/modules/ai/application/cv_parse_service.py:169-171 | lists are read from the first alias that holds something |
| `CvAnswers.NormalisedEntries` | app/modules/ai/application/cv_parse_service.py:166-173 | the dictionary holds the record under its six keys and nothing else |
| `CvAnswers.OneKeyIff` | app/modules/ai/application/cv_parse_service.py:258 | two values are one dictionary key exactly when they are equal numbers, booleans among them, or the same value |
| `CvRecords.MergedIsSettled` | app/modules/ai/application/cv_parse_service.py:248-259 | a merged record is already normalised |
| `CvRecords.DistinctIsFirstOccurrences` | app/modules/ai/application/cv_parse_service.py:256-258 | the kept values are exactly the first truthy occurrences of their keys, in order |
| `CvRecords.NormaliseParsedData` | app/modules/ai/application/cv_parse_service.py:123-173 | the three loops build the canonical dictionary |
| `CvRecords.FromKeys` | app/modules/ai/application/cv_parse_service.py:256-258 | insertion-ordered keys of the truthy values, or the type error of an unhashable one |
| `CvRecords.MergeParsedData` | app/modules/ai/application/cv_parse_service.py:248-259 | both loops over the section names compute the merge |
| `DocumentVersions.NumberVersions` | app/modules/recruitment/api/vacancies_routes.py:513-523 | two passes give each row the number of rows of its candidate from it to the end of the newest-first list |
| `DocumentVersions.VersionsAreOneToN` | app/modules/recruitment/api/vacancies_routes.py:513-523 | each candidate's versions are exactly 1..n, strictly decreasing down the list |
| `DocumentVersions.OldestIsOne` | app/modules/recruitment/api/vacancies_routes.py:513-523 | a row is version 1 exactly when no older row of its candidate exists |

## Left out

- HTTP wiring, request parsing and rate limits, email bodies and delivery, object storage, model
  calls, the Turnstile call (its verdict is a parameter of login and registration).
- SQL and the ORM: a query is a comprehension over rows, a write a field change; a query for one row
  that finds two is a failure that writes nothing.
- Signing, bcrypt and SHA-256: a JWT is known by its `jti` and decodes when it was issued and
  `now < exp`; every hash has a fresh salt, so hashes never repeat; the fingerprint claim is
  represented by the hash it is computed from, which assumes no two hashes share a fingerprint; the
  72-byte cut of bcrypt is not modelled.
- Redis: a key is gone from its deadline on, and its time to live is reported in whole seconds, rounded
  down; a server that rounds to the nearest second differs only below a second. SHA-256 of the throttle
  key only renames it.
- Interleaving inside one request: the code takes no locks, and service calls are atomic steps here.
- AuthServices.AuthService.GetByEmail: does not model stripping and lower-casing; an email is its normal form.
- AuthServices.AuthService.IssueTokens: does not model the `has_profile` flag of the reply, which comes from a
  check outside the service.
- AuthServices.AuthService.RegisterCandidate: does not write the consents; those are in `Consents.dfy`. The role
  link is a column of the user row here, and changing it later is in `UserRoles.dfy`.
- Portal and role seed rows stay fixed during a run of the session machine.
- Audit columns, soft deletion of refresh rows, the candidate profile switched off with its account, meeting
  links and other free text of an interview, and the notifications sent after an application or interview changes.
- The bootstrap's constants are a parameter: `RbacBootstrap.PlanOk` states what they must satisfy (one
  name per role, no repeated code, non-empty code lists inside the catalog). Its admin account is an id
  here; the row itself is in the session machine (`AuthServices.AuthService.InstallAdmin`).
- Names, modules and descriptions of permissions and roles, and an empty permission table (the sync fills
  it first).
- Reference tables (applications, parameters, users, stage flags) stay fixed during an interview or
  board run; whether a stage or process is in use is a parameter.
- Menu item create/update/delete with their reference checks: single-row checks.
- JSON numbers are integers and reals; NaN and infinities, which Python's decoder also accepts, are not
  part of the record model. The parsed record itself is an object, as its type says.
- Downgrade of the stage migration, and its guard against a missing 'applicants' parameter.
- Slot generation, vacancy, pipeline and candidate services, catalog matching by string similarity,
  Word document filling, identity-number, phone, age and password validators, pagination and thin CRUD
  services: foreign calls or single-row checks.
- Reference guards of the org catalogs: several routes switch rows off without them, so no invariant
  over runs holds there.
