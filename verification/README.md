# Verification of the authentication system

A Dafny model of the authentication system and proofs about it. `dafny verify dfyconfig.toml` checks
everything.

The system is a set of processes around shared stores: two HTTP APIs, a worker that consumes messages, two
relays that publish the outbox, a hashing service, the users and outbox tables, a read replica, RabbitMQ and
Redis. The model has four parts.

**The whole system as one state machine.** `Store` holds the shared state - tables, broker queue, tokens,
cached profiles, clock - and the 22 single operations performed on it. Each may take effect and answer, be
lost, or take effect and still report an error, after any delay. `Sessions`, `Accounts`, `Handlers` and the
relay in `Machine` are the use cases as automata: where a process is, what it asks for there, and where the
answer takes it. `Machine.After` is the state after a sequence of actions: requests, deliveries, single
operations of processes in any interleaving, and crashes. `Invariant` and `Safety` prove the invariant over
all runs, `History` reads where tokens come from and how old they are off the log of operations, `Redemption`
exactly which uses of a token succeed, `Effects` what became of role writes and messages, `Claims` what the
claims of issued sessions show, and `Guarantees` states what follows for every reachable state. `Hashes` and
`HashSpread` say exactly which hashes a user can come to have, `Upgrade` exactly when a password keeps matching, an
applied upgrade lasts, and a reset does; and `SecondFactor` exactly when a second factor stays on.
The exchanges, the binding and the key mapping are a parameter (`Topology`), and the laws hold for every
topology.

**Use cases served one at a time.** `Serial` runs a process to its end, and proves that this is a special
case of the interleaved system. `SingleUse` and `MfaTokens` say what one refresh and one verification do to their
tokens, and `Interleaving` and `UndoneUpgrades` give the runs in which two of them, or an upgrade and a set-up,
overlap. `RelayDrain` and `Consumer` prove that the relay and the consumer get their work done. `Outcomes` and
`AccountOutcomes` say exactly when each use case succeeds and what it leaves if nothing fails, `Failures` and
`AccountFailures` what each use case and handler answers whatever fails on the way, and `Journey`, `Recovery` and
`RoleChange` follow a registration, a forgotten password and a change of roles from the request to the login.

**The use cases as they run.** `Backend` is a class whose fields are the stores and whose methods are those
of the repositories and clients. `UseCases` and `Worker` are the methods of the use cases, handlers, consumer
and relay, in the order of the program, on that object and on `Users.User` entities. Each is proved to leave
exactly the state, the result and the number of operations of its automaton, so that whatever is proved of the
automata holds of it.

**The parts that compute.** `Text`, `Base64` and `PasswordV1` are the hash format, its printer and its parser;
`PasswordServer` the version registry and its routing; `Email` the address pattern and a one-pass recogniser;
`Users` the user entity and its restoration; `RateLimiter` the fixed-window limiter over timed traces; `RoleGate`
the role check.

What the program takes from outside is a parameter: generated identifiers and secrets, salts, transaction
times, the rows a query with ties returns, the replica's lag, and every fault are chosen by the environment
(`Store.Choice`); Argon2id, the comparison of a hashing service, TOTP validation, lower-casing and trimming
are functions of which nothing is assumed beyond what each law says. Where a law needs that identifiers do not
repeat, that the passwords in use do not match one another's hashes, or that a normalisation leaves normal text
alone, it says so.

## Where the documentation and the code differ

The model follows the code.

- The repository's `README.md` describes registration as reaching the worker through the outbox. The relay
  publishes to the exchange `auth.events`, while the worker's queue is bound to `auth.commands`:
  `Guarantees.ConfiguredStoresNoUser`. With equal exchanges the two commands would still not be handled, since their
  names already carry the prefix that the relay adds: `Topology.PrefixingDeliversExactly`.
- The repository's `README.md` says that confirming an address stores that it is verified. The update leaves
  the column out: `Guarantees.ConfirmationNeverStored`, `AccountOutcomes.ConfirmSucceedsExactlyWhen`.
- The comment on the rotation of refresh tokens suggests that a token is used once. It can be used as often as it
  is read before a deletion of it takes effect, and not after: `Redemption.BothRefreshExactlyWhen`,
  `Interleaving.OverlappingRefreshesBothSucceed`. The same holds of a logout: a refresh that has read the token goes
  on, `Redemption.LogoutStopsExactly`.
- The comment on the MFA token says that it is burnt after reading. It fails in two ways. The code does not look at
  whether the deletion worked: `MfaTokens.VerifyUsesUpExactlyWhen`. And verifications that read the token before a
  deletion takes effect all succeed: `Redemption.BothVerifyExactlyWhen`,
  `Interleaving.OverlappingVerificationsBothSucceed`.
- The comment on the set-up of the second factor says that it is off until confirmed. It is on at once:
  `AccountOutcomes.SetupSucceedsExactlyWhen`.
- The rate limiter's EXPIRE is a second command whose error is not looked at. Without it a used-up key refuses
  for ever: `RateLimiter.RefusedForeverWithoutExpire`. It is not issued at all where the first INCR took effect but
  reported an error, although the comment says that such a request only fails open: `RateLimiter.NotServedAgain`.
- A registration with an empty password is accepted by the API, and its message then comes back on every
  delivery until the address is registered otherwise: `Consumer.OthersComeBack`.
- The comment on password resets says that the token is burnt after reading; the code ignores whether that worked.
  And resets that read it before a deletion takes effect all succeed: `Redemption.BothResetExactlyWhen`.
- The comment on transparent upgrades says that a login has the older hash replaced. An applied upgrade need not
  last. What undoes it is a confirmation or set-up that loaded the user before, an upgrade of an earlier version that
  is still to be handled, a login under way that has another password hashed, or a reset:
  `Upgrade.UpgradeLastsExactlyWhen`, `UndoneUpgrades.UpgradeUndoneFromTheStart`,
  `UndoneUpgrades.OlderUpgradeUndoesFromTheStart`. In the same ways a reset is undone, and the old password matches
  again: `Upgrade.ResetLastsExactlyWhen`, `UndoneUpgrades.UpgradeUndoesReset`.
- A verification does not look at whether the second factor is still on. After a stale copy has turned it off, a token
  issued before is exchanged against an empty secret: `SecondFactor.AlwaysChecksSecretExactlyWhen`.

## Model

| member | source | states |
|---|---|---|
| Safety.Sound | internal/identity/infrastructure/postgres_repository.go:35-89 | Every state that any run reaches - any number of requests, relays and workers, interleaved one operation at a time, each of which may fail, take effect and still report an error, be delayed, or be cut short by a crash - satisfies the whole invariant of tables, broker, Redis and processes. |
| Safety.ApplyKeeps | pkg/queue/rabbitmq_consumer.go:79-100 | One action (a request, a delivery, an operation, a crash) keeps that invariant, and what is stored for good only grows. |
| Safety.Growth | internal/identity/infrastructure/postgres_repository.go:156-180 | Continuing a run never removes a user, changes its identifier, address or creation time, removes or alters an outbox row, clears its publication mark, or forgets a message or an acknowledgement. |
| Invariant.ExecOk | internal/identity/infrastructure/postgres_repository.go:35-180 | Every single operation a process may ask for keeps the invariant of the shared state, however it goes, and its answer speaks of stored users only. |
| Invariant.SaveKeepsOutbox | internal/identity/infrastructure/postgres_repository.go:57-88 | The insert brings exactly one registration event with the row: the count of events per user stays 1 for stored users and 0 for others. |
| Invariant.MarkOk | internal/identity/infrastructure/outbox_relay_worker.go:84-93 | Marking rows that the broker accepted keeps: a marked row was accepted. |
| Invariant.PublishOk | internal/identity/infrastructure/outbox_relay_worker.go:74-80 | Publishing adds a copy of the row to the broker, which waits in the queue exactly if it is routed. |
| Guarantees.TokensResolve | internal/identity/application/send_email_confirmation_usecase.go:33-46 | Referential integrity: in every run, every value stored under the four token prefixes is the identifier of a stored user, for every topology that keeps token-making handlers to events about stored users. |
| Guarantees.RegisteredExactlyOnce | internal/identity/application/process_user_registration_usecase.go:39-64 | In every run no two rows have the same address, each row has exactly one registration event, which describes it, and each such event has its row. |
| Guarantees.RelaySafe | internal/identity/infrastructure/outbox_relay_worker.go:43-94 | In every run, with any number of relays: a marked row was accepted by the broker as it stands, every broker message is the copy of a row, and no row is ever lost, altered or unmarked. |
| Guarantees.QueuePartition | pkg/queue/rabbitmq_consumer.go:79-100 | Waiting, held and acknowledged messages always partition exactly the messages that were routed to the queue. |
| Guarantees.UnroutedStoresNoUser | cmd/worker-events/main.go:102-107 | Under every topology in which the registration command does not reach the handler that registers, no run ever stores a user, since no other message carries a password. |
| Journey.UsersStoredExactlyWhen | cmd/worker-events/main.go:148-164 | Over all topologies: some run stores a user exactly if the registration command is routed to the worker and dispatched to the registration, given that the hashing service hashes some password at all. |
| Guarantees.ConfiguredStoresNoUser | cmd/worker-events/main.go:102-107 | As configured, where the relay and the worker name different exchanges, no run ever stores a user. |
| Guarantees.RowsRestore | internal/identity/domain/user.go:46-75 | A stored row always restores without error to a user with its columns: its address revalidates to itself, its hash is not empty, and the second factor is on exactly if there is a secret. |
| Guarantees.IdentityFrozen | internal/identity/infrastructure/postgres_repository.go:156-180 | Identifier, address, creation time and the verified flag of a row never change, in any interleaving. |
| Guarantees.ConfirmationNeverStored | internal/identity/infrastructure/postgres_repository.go:156-170 | Contrary to the documentation, the verified flag is false in every row of every run: the update leaves the column out. |
| Guarantees.CachedProfileIsCurrent | internal/identity/infrastructure/redis_profile_cache.go:22-46 | In every run, a profile served from the cache has the identifier, the address and the formatted creation time of the stored row, each under its own name. |
| Guarantees.ProfilesCoherent | internal/identity/application/get_user_profile_usecase.go:44-76 | In every run, a profile served from the cache has the identifier, address and formatted creation time that reading any replica state that holds the row would give, whatever the replica's lag and the fills under way. |
| Guarantees.ReplicaMayLag | internal/identity/infrastructure/postgres_read_repository.go:24-44 | The replica may lag behind by any amount: however a run goes on, every state that the users table has had remains one that a lookup in the replica can be answered from. |
| Claims.SessionsCarryLastRoles | pkg/auth/jwt.go:107-138 | In every run, the claims of every access token that is signed are those of a lookup of its own process: the user is as its row showed it then, and its roles pass the gate exactly when the allowed list has "user" or a role of the last roles write before that lookup. |
| Claims.LookupsShowTheTable | internal/identity/infrastructure/postgres_repository.go:91-154 | Whatever a lookup answers is the row of that identifier in the table, as it was when the lookup took place, with "user" added to the roles. |
| Claims.CheckIssued | pkg/auth/jwt.go:107-138 | The role check, as it runs on the claims of an issued session, allows exactly if the allowed list has "user" or a role of the last roles write before the session's lookup. |
| Effects.RoleWritesNeverLost | internal/identity/infrastructure/postgres_repository.go:156-180 | In every run, whatever stale load-then-update handlers interleave, the roles column is that of the last roles write for the user, or the default. |
| Effects.AckedExactlyOnSuccess | pkg/queue/rabbitmq_consumer.go:92-97 | In every run a message is done exactly when some process was handed it, its handler - in a logged operation of that process, or at once in the dispatch - returned without error, and the process then settled it. |
| Effects.ReturnedButCrashed | pkg/queue/rabbitmq_consumer.go:85-98 | Returning without error is not enough: a process that crashes between its handler's return and the acknowledgement leaves the message waiting. |
| Effects.AckedMeansRegistered | internal/identity/application/process_user_registration_usecase.go:33-64 | No registration is lost: a registration message that is done had an invalid address, or its address is that of a stored user. |
| Effects.LoserRequeues | internal/identity/infrastructure/postgres_repository.go:57-63 | A worker that reaches the insert after the address was registered changes no table, and its message goes back to the queue. |
| Effects.DuplicateAcked | internal/identity/application/process_user_registration_usecase.go:39-47 | A delivery whose address is registered already is acknowledged without change as soon as its lookup works. |
| Effects.LoserThenAcked | internal/identity/application/process_user_registration_usecase.go:43-61 | After a lost insert race, whatever happens in between: the next delivery whose lookup works is acknowledged and changes no table. |
| History.RefreshTokensDescend | internal/identity/application/refresh_token_usecase.go:46-83 | In every run, every stored refresh token descends, through rotations that keep the user, from a login of a user that its process had looked up in the table, whose hash found there matched the password and who had no second factor; or from the verification of a valid code, against the secret found, on an MFA token that such a login issued to the same user. |
| History.Origins | internal/identity/application/login_user_usecase.go:81-132 | Every stored MFA token was issued by a login of a user it had looked up in the table, whose hash found there matched and who has a second factor; what each process knows of its user's checks is backed by the log. |
| History.TokensUsedInTime | internal/identity/application/send_password_reset_email_usecase.go:36-41 | In every run, every read that accepts a token comes less than 5 minutes (MFA), 15 minutes (reset), 24 hours (confirmation) or 7 days (refresh) after the operation that stored it for that user. |
| History.TokenAges | internal/identity/application/login_user_usecase.go:104-132 | Every stored token was stored by an operation in the log and expires exactly 300 (MFA), 900 (reset), 86 400 (confirmation) or 604 800 (refresh) seconds after it. |
| Redemption.DeletedNeverRead | internal/identity/application/refresh_token_usecase.go:73-83 | In every run whose generated values do not repeat: once a deletion of a token that was generated before took effect, the token is never stored again and no later read of it is answered. |
| Redemption.AnsweredExactlyWhen | internal/identity/application/refresh_token_usecase.go:50-56 | In every such run, a read without a fault is answered exactly when the token was stored less than 5 minutes (MFA), 15 minutes (reset), a day (confirmation) or a week (refresh) ago and no deletion of it took effect since. |
| Redemption.RefreshRedeemsExactlyWhen | internal/identity/application/refresh_token_usecase.go:46-90 | In every interleaving, whatever faults the others have: a refresh without a fault of its own succeeds exactly when, at its read, the token was stored within its lifetime and no deletion of it, by a refresh or a logout, had taken effect. |
| Redemption.RefreshedForAWeek | internal/identity/application/login_user_usecase.go:128-132 | In every interleaving, a refresh without a fault of its own, of a token that no deletion has reached, succeeds exactly when less than 604 800 000 000 000 nanoseconds have passed since the operation that stored it. |
| Redemption.VerifiedForFiveMinutes | internal/identity/application/login_user_usecase.go:106-112 | So does a verification whose code is found valid, within 300 000 000 000 nanoseconds of the login, |
| Redemption.ResetForFifteenMinutes | internal/identity/application/send_password_reset_email_usecase.go:36-41 | a password reset within 900 000 000 000 of the worker's making the token, |
| Redemption.ConfirmedForADay | internal/identity/application/send_email_confirmation_usecase.go:40-46 | and a confirmation within 86 400 000 000 000. |
| Redemption.BothRefreshExactlyWhen | internal/identity/application/refresh_token_usecase.go:50-83 | In every interleaving, two refreshes of one token, begun within its lifetime and without faults of their own, both succeed exactly when both read it before any deletion of it takes effect. |
| Redemption.EachBeforeTheOther | internal/identity/application/refresh_token_usecase.go:50-83 | Where nobody else deletes the token, of whichever kind, that is: exactly when each of the two reads it before the other's deletion takes effect. |
| Redemption.LogoutStopsExactly | internal/identity/application/logout_usecase.go:24-34 | In every interleaving, a refresh without a fault of its own, of a token that only a logout deletes, succeeds exactly when it reads the token before the logout takes effect. |
| Redemption.VerifyRedeemsExactlyWhen | internal/identity/application/verify_mfa_usecase.go:43-94 | In every interleaving, a verification without a fault of its own succeeds exactly when its code was found valid and, at its read, the token was stored within its lifetime and no deletion of it had taken effect. |
| Redemption.BothVerifyExactlyWhen | internal/identity/application/verify_mfa_usecase.go:46-70 | In every interleaving, two verifications of one MFA token, begun within its lifetime, with codes found valid and without faults of their own, both issue a session exactly when both read the token before any deletion of it takes effect. |
| Redemption.ExchangedBeforeDeleted | internal/identity/application/verify_mfa_usecase.go:46-83 | In every run, with any faults: a process that comes to exchange a token for a session had read it before any deletion of it took effect. |
| Redemption.RedeemsExactlyWhen | internal/identity/application/reset_password_usecase.go:46-80 | The same of every kind of token: a refresh, a verification with a valid code, a reset with a password that can be hashed, or a confirmation, without a fault of its own, succeeds exactly when at its read the token was stored within its lifetime and no deletion of it had taken effect. |
| Redemption.BothUsesExactlyWhen | internal/identity/application/reset_password_usecase.go:46-80 | Two such uses of one token both succeed exactly when both read it before any deletion of it takes effect. |
| Redemption.BothResetExactlyWhen | internal/identity/application/reset_password_usecase.go:46-80 | So two resets with one token both replace the password exactly then, though the token is said to be burnt after reading. |
| Redemption.BothConfirmExactlyWhen | internal/identity/application/confirm_email_usecase.go:35-69 | And two confirmations with one token both succeed exactly then. |
| SingleUse.RotationReplacesOne | internal/identity/application/refresh_token_usecase.go:73-83 | A successful refresh replaces exactly the redeemed token by the one it returns: the number of sessions stays the same and no other token is touched. |
| SingleUse.JobsKeepIssued | internal/identity/application/send_email_confirmation_usecase.go:40-46 | Only generated tokens are ever stored, over any jobs in turn. |
| MfaTokens.VerifyUsesUpExactlyWhen | internal/identity/application/verify_mfa_usecase.go:46-83 | A successful verification needs the token stored, and leaves it stored exactly when its deletion, whose result is not looked at, did not take effect. |
| MfaTokens.VerifySucceedsExactlyWhen | internal/identity/application/verify_mfa_usecase.go:43-94 | Without faults a verification served alone succeeds exactly when the token is stored and unexpired when read and the code is valid for the secret in the user's row; the session shows that row, roles included, and its refresh token, stored for a week, takes the place of the MFA token. |
| Interleaving.OverlappingRefreshesBothSucceed | internal/identity/application/refresh_token_usecase.go:50-83 | The overlap happens: from any state with a live refresh token, two refreshes that both read it before either deletes it both succeed, without any fault, and leave two valid tokens. |
| Interleaving.OverlappingVerificationsBothSucceed | internal/identity/application/verify_mfa_usecase.go:46-83 | So it does for the second factor: from any state with a live MFA token, two verifications with valid codes that both read it before either deletes it both issue a session, without any fault and with both deletions taking effect. |
| Outcomes.LoginSucceedsExactlyWhen | internal/identity/application/login_user_usecase.go:62-143 | Without faults a login succeeds exactly when the address is valid and registered and the password matches the stored hash; it asks for a second factor exactly if the user has one, else returns a session that shows the row, roles included; it stores the token it answers for that user, for five minutes or a week, and queues an upgrade to a new hash of the password exactly if the comparison asked for one; all failures are the same. |
| Outcomes.RefreshSucceedsExactlyWhen | internal/identity/application/refresh_token_usecase.go:46-90 | Without faults a refresh succeeds exactly when the token is stored and unexpired when read, and returns a session that shows the row of the user it names as it is then, roles included; the token it returns takes the place of the old one and expires a week after it was stored. |
| AccountOutcomes.ResetSucceedsExactlyWhen | internal/identity/application/reset_password_usecase.go:43-84 | Without faults a reset succeeds exactly when the token is stored and unexpired when read and the new password is hashed: then exactly that user's hash is replaced, its update time set to that of the hashing, and exactly that token removed; otherwise no user and no token changes. |
| AccountOutcomes.SetupSucceedsExactlyWhen | internal/identity/application/setup_mfa_usecase.go:28-59 | Without faults, setting up the second factor succeeds exactly for a stored user and a secret of at most 128 characters, and then turns it on at once with the secret that was answered, sets the update time, and changes nothing else. |
| AccountOutcomes.RolesRequestQueues | internal/identity/application/update_user_roles_usecase.go:29-52 | Without faults a roles request succeeds exactly for a stored user (identifiers compared as text), and adds exactly the command for that user and those roles to the outbox. |
| AccountOutcomes.RolesCommandApplies | internal/identity/application/process_user_roles_update_usecase.go:24-51 | Without faults the delivery of a roles command writes exactly the roles it names; a command without a list fails and comes back. |
| Outcomes.LogoutRemovesExactly | internal/identity/application/logout_usecase.go:24-34 | Without faults a logout always succeeds and removes exactly the token it names. |
| AccountOutcomes.ConfirmSucceedsExactlyWhen | internal/identity/application/confirm_email_usecase.go:35-69 | Without faults a confirmation succeeds exactly when the token is stored and unexpired when read; it burns the token, and sets nothing of the user but the update time. |
| AccountOutcomes.ProfileSucceedsExactlyWhen | internal/identity/application/get_user_profile_usecase.go:44-76 | Without faults a profile query answers the stored user's identifier, address and formatted creation time, each under its own name, exactly when the cache has an unexpired entry or the replica shows the user; in the second case that answer is cached for ten minutes. |
| Consumer.NotHandled | cmd/worker-events/main.go:148-164 | A message with an unknown key is dropped, one whose text does not decode comes back; neither changes a user. |
| Failures.LoginOutcome | internal/identity/application/login_user_usecase.go:62-143 | Whatever fails, a login goes on in spite of an upgrade that fails in either of its two operations, and answers a comparison that fails like a wrong password; every other failure ends it with an error, and what it answers is fixed for every pattern of faults. |
| Failures.VerifyOutcome | internal/identity/application/verify_mfa_usecase.go:43-94 | Whatever fails, a verification issues a session exactly when the token is live at its read, the code is valid, and every operation works but, perhaps, the deletion of the token; anything wrong with the code, its check included, is answered alike. |
| Failures.RefreshOutcome | internal/identity/application/refresh_token_usecase.go:46-90 | Whatever fails, a refresh issues a session exactly when the token is live at its read and all five operations work. |
| Failures.LogoutOutcome | internal/identity/application/logout_usecase.go:24-34 | A logout succeeds exactly when its deletion works. |
| AccountFailures.RegisterOutcome | internal/identity/application/register_user_usecase.go:33-65 | Whatever fails, a registration request succeeds exactly for a free address of the pattern, when both its operations work; with the error of each other case. |
| AccountFailures.ForgotOutcome | internal/identity/application/forgot_password_usecase.go:35-58 | Whatever fails, a request for a new password tells a registered address from another only where the command cannot be queued. |
| AccountFailures.RolesRequestOutcome | internal/identity/application/update_user_roles_usecase.go:29-52 | Whatever fails, a roles request succeeds exactly for a stored user, when both its operations work. |
| AccountFailures.ResetOutcome | internal/identity/application/reset_password_usecase.go:43-84 | Whatever fails, a reset succeeds exactly when the token is live at its read, the password is hashed, and every operation works but, perhaps, the deletion of the token. |
| AccountFailures.ConfirmOutcome | internal/identity/application/confirm_email_usecase.go:35-69 | Whatever fails, a confirmation succeeds exactly when the token is live at its read and every operation works but, perhaps, the deletion of the token. |
| AccountFailures.SetupOutcome | internal/identity/application/setup_mfa_usecase.go:28-59 | Whatever fails, a set-up answers the secret that was drawn exactly for a stored user and a secret of at most 128 characters, when all three operations work. |
| AccountFailures.ProfileOutcome | internal/identity/application/get_user_profile_usecase.go:44-76 | Whatever fails, a profile query passes over a cache that fails, reports a replica that fails as an unknown user, and does not notice a fill that fails. |
| AccountFailures.RegistrationOutcome | internal/identity/application/process_user_registration_usecase.go:26-65 | Whatever fails, a registration message is done exactly when its text decodes and its address is not of the pattern, or is found registered, or the user is stored: with a password that is hashed, an address of at most 255 characters and a new identifier. |
| AccountFailures.RolesCommandOutcome | internal/identity/application/process_user_roles_update_usecase.go:24-51 | Whatever fails, a roles command is done exactly when its text decodes, its user is stored, it names roles, and both operations work. |
| AccountFailures.MailOutcome | internal/identity/application/send_email_confirmation_usecase.go:33-57 | Whatever fails, a message that has a token mailed is done exactly when its text decodes and the token is stored. |
| AccountFailures.UpgradeOutcome | internal/identity/application/process_password_upgrade_usecase.go:27-49 | Whatever fails, an upgrade is done exactly when its text decodes, its user is stored, it brings a hash, and both operations work. |
| Journey.RegisteredUserLogsIn | internal/identity/application/register_user_usecase.go:33-65 | From end to end, where nothing fails and the command reaches its handler: after a request for a free address, a relay pass that takes it, and the delivery, a login with the same address and password returns a session of the new user, whoever else is registered. |
| AccountOutcomes.RegisterSucceedsExactlyWhen | internal/identity/application/register_user_usecase.go:33-65 | Without faults a registration request succeeds exactly for an address whose normal form is of the pattern and free, and then adds the command with the address and password as they were given to the outbox, and nothing else. |
| Journey.TickDelivers | internal/identity/infrastructure/outbox_relay_worker.go:62-93 | A pass without faults whose batch has a routed row puts a copy of it into the queue, and touches no user and no token. |
| Journey.DeliveryStores | internal/identity/application/process_user_registration_usecase.go:39-64 | Without faults the delivery of a storable registration inserts exactly one row, and its event: the new user with the normalised address, a hash of the password, the one role "user", no second factor, and the time of the insert. |
| Recovery.ForgottenPasswordIsReplaced | internal/identity/application/forgot_password_usecase.go:35-58 | From end to end: after a request for a registered address, a relay pass that takes it, and the delivery, a reset with the token that was made, within its lifetime, succeeds and burns the token; a login with that address then succeeds with exactly the passwords that match the new hash, the new password among them. |
| Recovery.ForgottenUnderV1 | internal/password/application/password_service_v1.go:55-95 | Where new hashes are of version 1, those are exactly the passwords that Argon2id maps to the digest of the new one under its salt. |
| RoleChange.ChangedRolesReachTheGate | internal/identity/application/process_user_roles_update_usecase.go:24-51 | From end to end: after a request to change a user's roles, a relay pass that takes it, and the delivery, the user's next login passes the gate exactly where "user" or one of the new roles is allowed, whatever the roles were before. |
| Recovery.RequestQueuesExactlyWhen | internal/identity/application/forgot_password_usecase.go:35-58 | Without faults a request for an address of the pattern always succeeds alike, and puts the event with the user's identifier and address into the outbox exactly if the address is registered. |
| Recovery.DeliveryMints | internal/identity/application/send_password_reset_email_usecase.go:26-41 | The delivery of an event that has a token mailed stores one for the user it names, which lives 15 minutes if it is for a reset and a day if it is for a confirmation. |
| Hashes.HashesStayIn | internal/identity/application/process_password_upgrade_usecase.go:27-49 | In every interleaving in which no password reset of the user gets so far as to load it, from any state with the invariant: a set of hashes that holds the stored one, those that confirmations and set-ups under way can write back, those of all upgrades that can still be handled - in rows not yet published, with a relay, waiting, or held - and those that logins under way will have queued, keeps holding them all, if a login that finds a hash of it has only such hashes queued. |
| HashSpread.StaysInExactlyWhen | internal/identity/application/process_password_upgrade_usecase.go:27-49 | And that is exact: from each of these places a hash outside the set does come to be stored, by a continuation without a fault and without a reset - through relay passes, delivery and redelivery as needed. |
| Upgrade.PasswordKeepsMatching | internal/identity/application/login_user_usecase.go:86-101 | In every interleaving without such a reset, whatever upgrades are applied, in any order and any number of times: of the passwords in use exactly this one matches the stored hash, however it goes on, exactly when that holds of all hashes in those places; given that no other password in use matches a hash made of it under a salt in use. |
| Upgrade.UpgradeLastsExactlyWhen | internal/identity/application/process_password_upgrade_usecase.go:27-49 | After an applied upgrade, the stored hash needs no upgrade over all continuations without such a reset exactly when it needs none now and none of those places holds a hash that is not current. A login under way that compares the same password with an older copy does no harm where new hashes are current; an upgrade of an earlier version that is still to be handled does. |
| Upgrade.ResetLastsExactlyWhen | internal/identity/application/reset_password_usecase.go:43-84 | After a reset takes effect, exactly the new password of those in use matches; and over all continuations without another reset that loads the user that stays so exactly when no confirmation or set-up can write back, no upgrade that can still be handled carries, and no login under way will have queued a hash of which it does not hold. |
| UndoneUpgrades.UpgradeUndoesReset | internal/identity/application/process_password_upgrade_usecase.go:27-49 | One of the ways, served one at a time: an upgrade made of the old password before a reset and delivered after it is applied and acknowledged, and then exactly the passwords that match the hash of the old one log in. |
| UndoneUpgrades.OlderUpgradeUndoesFromTheStart | internal/identity/application/process_password_upgrade_usecase.go:27-49 | A run from the very start without reset, set-up or confirmation: two hash versions are added one after the other, a login after each has an upgrade queued, and the later one is delivered first; both are acknowledged, and the stored hash ends up of the earlier one and asks for an upgrade. |
| UndoneUpgrades.LastUpgradeWins | internal/identity/application/process_password_upgrade_usecase.go:27-49 | Where two upgrades of a user wait and both are delivered without a fault, both are acknowledged and the user has the hash of the second, whichever was queued first. |
| UndoneUpgrades.SetupUndoesUpgrade | internal/identity/application/setup_mfa_usecase.go:28-59 | From any state with the invariant in which an upgrade waits: a set-up of the second factor that loads the user before the upgrade is handled and goes on after it leaves the hash from before, although nothing fails and the upgrade is acknowledged. |
| UndoneUpgrades.UpgradeUndoneFromTheStart | internal/identity/application/setup_mfa_usecase.go:28-59 | Such a run from the very start: a user registers, another hash version is added to the server, the next login has the upgrade queued, the set-up overlaps its delivery, and in the end the stored hash is of the older version and asks for an upgrade. |
| SecondFactor.StaysOnExactlyWhen | internal/identity/infrastructure/postgres_repository.go:156-170 | In every interleaving: a second factor that is on stays on, however the run goes on, exactly when no confirmation, reset, set-up or upgrade under way has loaded the user with it off and can write that back. |
| SecondFactor.ChecksSecretExactlyWhen | internal/identity/application/verify_mfa_usecase.go:51-68 | In every run, the secret against which a verification checks its code is not empty exactly when the second factor was on at the verification's own lookup: the flag itself is not looked at again. |
| SecondFactor.AlwaysChecksSecretExactlyWhen | internal/identity/application/verify_mfa_usecase.go:43-70 | From a state in which a user's MFA token is live and the second factor on, every verification checks its code against a secret, however the run goes on, exactly when nothing under way can write back a copy of the user with the second factor off. |
| SecondFactor.UpgradeUndoesSetup | internal/identity/application/setup_mfa_usecase.go:28-59 | From any state with the invariant in which an upgrade waits for a user without a second factor: if it loads the user before a set-up and goes on after it, nothing fails, the set-up answers its secret, and the second factor is off again. |
| Upgrade.UpgradeConverges | internal/identity/application/process_password_upgrade_usecase.go:27-49 | Served one at a time, any faults, no reset: if of the passwords in use exactly this one matches the stored hash and those of all upgrades to be handled, it stays so over whatever jobs follow; and once a delivered upgrade is acknowledged, and no other that is to be handled is of an older version, the upgrade flag is cleared and stays so, repeated deliveries included. |
| Upgrade.ServersNeedOfHash | internal/password/presentation/grpc_server.go:48-69 | What the law of upgrades asks of the hashing service holds of every server: whether a hash needs an upgrade depends on its version alone. |
| Upgrade.ServerUpgradeLastsExactlyWhen | internal/password/presentation/grpc_server.go:48-69 | So for every server, whatever versions are registered: exactly when an applied upgrade lasts. |
| Upgrade.V1TellsApartExactlyWhen | internal/password/application/password_service_v1.go:55-95 | For a server whose new hashes are of version 1, what the other laws ask means exactly that Argon2id maps no other password in use to the digest of this one under a salt in use. |
| Upgrade.V1PasswordKeepsMatching | internal/password/application/password_service_v1.go:55-95 | So under version 1: exactly when a password keeps matching, |
| Upgrade.V1ResetLastsExactlyWhen | internal/password/application/password_service_v1.go:55-95 | exactly when a reset lasts, |
| Upgrade.V1UpgradeConverges | internal/password/application/password_service_v1.go:55-95 | and that upgrades converge. |
| Upgrade.AtRest | internal/identity/application/login_user_usecase.go:81-103 | Where nothing is under way, and every upgrade of the user that was queued is published and acknowledged, the condition of these laws is one of the stored hash alone. |
| Upgrade.SuchAServerExists | internal/password/application/password_service_v1.go:15-35 | The conditions can be met, for every topology: a server of version 1 with the default parameters that tells two passwords apart under every 16-byte salt. |
| Upgrade.ServersMakeCurrentHashes | internal/password/presentation/grpc_server.go:34-69 | A server whose last registered version is well behaved makes the hashes these laws ask for. |
| RelayDrain.TickDropsExactly | internal/identity/infrastructure/outbox_relay_worker.go:60-93 | With any failures, the number of unpublished rows drops by exactly the pass's reported publications once the update takes effect, and not at all otherwise. |
| RelayDrain.TickRuns | internal/identity/infrastructure/outbox_relay_worker.go:43-94 | The effect of one pass under any faults: which rows are marked and with which time, which messages the broker has, and when it succeeds. |
| RelayDrain.TickMarksFifty | internal/identity/infrastructure/outbox_relay_worker.go:43-94 | One pass without a fault that succeeds publishes a copy of exactly the min(50, n) oldest of n unpublished rows, in order, and marks exactly those with its time. |
| RelayDrain.BatchExists | internal/identity/infrastructure/outbox_relay_worker.go:46-52 | Every outbox has a batch that the query may return, for every limit. |
| RelayDrain.TicksCanSucceed | internal/identity/infrastructure/outbox_relay_worker.go:43-94 | From every state, any number of passes can succeed one after another. |
| RelayDrain.BatchesCompose | internal/identity/infrastructure/outbox_relay_worker.go:46-52 | Taking the oldest rows and then the oldest of what is left is taking the oldest rows. |
| RelayDrain.TicksRefineOnePass | internal/identity/infrastructure/outbox_relay_worker.go:43-94 | Passes without faults are together one pass: what they publish, in order, is what a single query with all their limits together may return. |
| RelayDrain.DrainedExactlyWhen | internal/identity/infrastructure/outbox_relay_worker.go:46-93 | k passes without faults publish exactly the min(50 k, n) oldest of n unpublished rows, each once and sorted by creation time; the outbox is drained exactly when 50 k reaches n. |
| Consumer.Consume | pkg/queue/rabbitmq_consumer.go:79-100 | The loop on a queue of registrations that can be stored, once its dependencies stop failing: it ends, acknowledges exactly the messages that waited, and leaves each valid address with a stored user. |
| Consumer.DeliverySettles | pkg/queue/rabbitmq_consumer.go:85-98 | However its handler goes, a delivered message is done if the handler returned without error and back in the queue otherwise; no other message moves. |
| Consumer.AcknowledgedExactlyWhen | internal/identity/application/process_user_registration_usecase.go:26-65 | Without faults a registration message is acknowledged exactly when its text decodes and its address is invalid, or registered, or storable with its password. |
| Consumer.OthersComeBack | internal/identity/application/process_user_registration_usecase.go:49-53 | Any other registration message comes back on every delivery, whatever the faults. |
| Serial.JobsAreARun | pkg/queue/rabbitmq_consumer.go:79-100 | Jobs done one after another are a run of the interleaved system. |
| Serial.FinishIsARun | internal/identity/application/login_user_usecase.go:62-143 | So is a process run to its end, and it leaves all other processes alone. |
| UseCases.LoginUser | internal/identity/application/login_user_usecase.go:62-143 | The login as it runs, on the stores and user entities: new state, result and number of operations are exactly those of its automaton, so that the laws of runs and outcomes hold of it. |
| UseCases.VerifyMFA | internal/identity/application/verify_mfa_usecase.go:43-94 | The verification of a code as it runs, on the stores and user entities: new state, result and number of operations are exactly those of its automaton, so that the laws of runs and outcomes hold of it. |
| UseCases.RefreshToken | internal/identity/application/refresh_token_usecase.go:46-90 | The refresh as it runs, on the stores and user entities: new state, result and number of operations are exactly those of its automaton, so that the laws of runs and outcomes hold of it. |
| UseCases.Logout | internal/identity/application/logout_usecase.go:24-34 | The logout as it runs, on the stores and user entities: new state, result and number of operations are exactly those of its automaton, so that the laws of runs and outcomes hold of it. |
| UseCases.RegisterUser | internal/identity/application/register_user_usecase.go:33-65 | The registration request as it runs, on the stores and user entities: new state, result and number of operations are exactly those of its automaton, so that the laws of runs and outcomes hold of it. |
| UseCases.UpdateUserRoles | internal/identity/application/update_user_roles_usecase.go:29-52 | The roles request as it runs, on the stores and user entities: new state, result and number of operations are exactly those of its automaton, so that the laws of runs and outcomes hold of it. |
| UseCases.ForgotPassword | internal/identity/application/forgot_password_usecase.go:35-58 | The forgotten-password request as it runs, on the stores and user entities: new state, result and number of operations are exactly those of its automaton, so that the laws of runs and outcomes hold of it. |
| UseCases.ResetPassword | internal/identity/application/reset_password_usecase.go:43-84 | The password reset as it runs, on the stores and user entities: new state, result and number of operations are exactly those of its automaton, so that the laws of runs and outcomes hold of it. |
| UseCases.ConfirmEmail | internal/identity/application/confirm_email_usecase.go:35-69 | The e-mail confirmation as it runs, on the stores and user entities: new state, result and number of operations are exactly those of its automaton, so that the laws of runs and outcomes hold of it. |
| UseCases.SetupMFA | internal/identity/application/setup_mfa_usecase.go:28-59 | The setting up the second factor as it runs, on the stores and user entities: new state, result and number of operations are exactly those of its automaton, so that the laws of runs and outcomes hold of it. |
| UseCases.GetUserProfile | internal/identity/application/get_user_profile_usecase.go:44-76 | The profile query as it runs, on the stores and user entities: new state, result and number of operations are exactly those of its automaton, so that the laws of runs and outcomes hold of it. |
| UseCases.Rotate | internal/identity/application/refresh_token_usecase.go:77-83 | Both commands of the pipeline are sent, and both have to work. |
| Worker.ProcessUserRegistration | internal/identity/application/process_user_registration_usecase.go:26-65 | The registration handler as it runs performs exactly the operations of its automaton and returns its result. |
| Worker.ProcessRolesUpdate | internal/identity/application/process_user_roles_update_usecase.go:24-51 | The roles handler as it runs performs exactly the operations of its automaton and returns its result. |
| Worker.SendConfirmation | internal/identity/application/send_email_confirmation_usecase.go:33-57 | The confirmation token handler as it runs performs exactly the operations of its automaton and returns its result. |
| Worker.SendPasswordReset | internal/identity/application/send_password_reset_email_usecase.go:26-51 | The reset token handler as it runs performs exactly the operations of its automaton and returns its result. |
| Worker.ProcessPasswordUpgrade | internal/identity/application/process_password_upgrade_usecase.go:27-49 | The password upgrade handler as it runs performs exactly the operations of its automaton and returns its result. |
| Worker.Handle | cmd/worker-events/main.go:148-164 | The dispatch on the routing key runs the handler that the topology says, and none for an unknown key. |
| Worker.Deliver | pkg/queue/rabbitmq_consumer.go:85-98 | One round of the consumer's loop: acknowledged exactly if the handler returned without error, else back in the queue. |
| Worker.ProcessOutbox | internal/identity/infrastructure/outbox_relay_worker.go:43-94 | One pass of the relay as it runs: the row loop publishes each row of the batch and marks together those that worked, exactly as the automaton does. |
| Backend.Backend.FindByEmail | internal/identity/infrastructure/postgres_repository.go:91-122 | The lookup returns the one row with the address, restored, or nothing, or an error, as specified. |
| Backend.Backend.FindByID | internal/identity/infrastructure/postgres_repository.go:124-154 | The lookup by identifier, as specified. |
| Backend.Backend.Save | internal/identity/infrastructure/postgres_repository.go:35-89 | Saves a new user as specified, whatever goes wrong. |
| Backend.Backend.Insert | internal/identity/infrastructure/postgres_repository.go:42-88 | The transaction: the row and its event are both inserted, or neither is; it commits exactly if identifier and address are free and the address has at most 255 characters, and every column is fixed. |
| Backend.Backend.Update | internal/identity/infrastructure/postgres_repository.go:156-170 | Writes exactly the hash, second-factor and update-time columns of the row. |
| Backend.Backend.UpdateRoles | internal/identity/infrastructure/postgres_repository.go:172-180 | Writes exactly the roles and update-time columns of the row. |
| Backend.Backend.SaveCommand | internal/identity/infrastructure/postgres_outbox_repository.go:22-29 | Appends one unpublished row. |
| Backend.Backend.SelectBatch | internal/identity/infrastructure/outbox_relay_worker.go:46-57 | Returns at most 50 unpublished rows, the oldest, by creation time, each with its own event and payload. |
| Backend.Backend.Publish | pkg/queue/rabbitmq_publisher.go:38-63 | Adds the message to the broker, and to the queue exactly if it is routed. |
| Backend.Backend.Mark | internal/identity/infrastructure/outbox_relay_worker.go:86-88 | Marks exactly the given rows. |
| Backend.Backend.FindInReplica | internal/identity/infrastructure/postgres_read_repository.go:24-44 | Reads some past state of the users table, without hash and roles. |
| Backend.Backend.GetProfile | internal/identity/infrastructure/redis_profile_cache.go:22-37 | Answers an entry that has not expired. |
| Backend.Backend.SetProfile | internal/identity/infrastructure/redis_profile_cache.go:39-46 | Stores the entry for ten minutes. |
| Users.LoadedUser | internal/identity/infrastructure/postgres_repository.go:138-153 | A loaded user has every column of its row, and as roles exactly the duplicate-free list, in first-occurrence order, of "user" followed by the stored roles. |
| Users.AddRolesInOrder | internal/identity/domain/user.go:112-120 | Adding roles one by one keeps the first occurrence of each, in order. |
| Users.WithoutRemovesOnly | internal/identity/domain/user.go:152-161 | Removing a role removes every occurrence of it and keeps every other role as often as it was there. |
| Users.WithoutKeepsOrder | internal/identity/domain/user.go:152-161 | And what is left stays in order: removing from one list after another is removing from each. |
| Users.Restored | internal/identity/infrastructure/postgres_repository.go:113-121 | Restoring a row and adding its roles in a loop gives the loaded user, or an error, as specified. |
| Users.User.AddRole | internal/identity/domain/user.go:112-120 | The scan appends the role exactly if it is not there. |
| Users.User.RemoveRole | internal/identity/domain/user.go:152-161 | The loop keeps the other roles in order. |
| Users.User.UpdatePassword | internal/identity/domain/user.go:106-109 | Changes the hash and the update time only. |
| Users.User.EnableMFA | internal/identity/domain/user.go:134-138 | Sets the flag and the secret together. |
| Users.User.DisableMFA | internal/identity/domain/user.go:140-144 | Clears the flag and the secret together. |
| Users.User.ConfirmEmail | internal/identity/domain/user.go:146-149 | Sets the flag on the entity. |
| Users.User.constructor | internal/identity/domain/user.go:64-74 | An entity with the given fields. |
| Email.RecogniserIsPattern | internal/identity/domain/email.go:13-27 | The pattern, read as some place for the @ and some place for the last dot that split the text into its three listed character classes, is the same as a single pass over the text. |
| Email.NewEmailIdempotent | internal/identity/domain/email.go:21-27 | An address is accepted exactly when its normal form is of the pattern, and that is what is returned; accepted values are accepted again unchanged, for any normalisation that fixes already normal text; and exactly the texts of the pattern are their own normal form. |
| Text.SplitJoin | internal/password/application/password_service_v1.go:59-59 | Splitting undoes joining, if no field has the separator. |
| Text.PrintIsDecimal | internal/password/application/password_service_v1.go:48-50 | A printed number has its decimal digits, the i-th from the right that of the i-th power of ten, and no zero in front. |
| Text.ScanOfPrint | internal/password/application/password_service_v1.go:75-75 | Scanning a decimal number undoes printing it, within the width of its type. |
| Text.ScansExactlyWhen | internal/password/application/password_service_v1.go:74-77 | Exactly which texts the number verb scans, and as what: an optional run of blanks and then the longest run of digits, whose value fits the variable. |
| Base64.RoundTrip | internal/password/application/password_service_v1.go:45-46 | Unpadded base64 (RFC 4648, sections 3.2 and 4) decodes to the bytes that were encoded. |
| Base64.DecodesExactlyWhen | internal/password/application/password_service_v1.go:79-87 | Exactly which texts decode: without line breaks, all letters in the alphabet, and no single letter left over. |
| Base64.EncodesGroup | internal/password/application/password_service_v1.go:45-46 | Three bytes become the four digits in base 64 of their 24-bit number, in the standard alphabet; two bytes or one become three digits or two, with zeros for the missing bits. |
| Base64.EncodesInGroups | internal/password/application/password_service_v1.go:45-46 | A longer text is encoded group by group. |
| Base64.DecodesGroup | internal/password/application/password_service_v1.go:79-87 | Four digits are read back as the three bytes of their number; of three or two, the bits that do not fill a byte are dropped, whatever they are. |
| PasswordV1.ParseOfHash | internal/password/application/password_service_v1.go:37-87 | The parser reads back exactly the memory, time, threads, salt and digest that were printed, for every password, salt and parameter set. |
| PasswordV1.HashIsPhcString | internal/password/application/password_service_v1.go:48-52 | A hash is v1:$argon2id$v=19$m=..,t=..,p=..$salt$digest, with its own parameters and the digest under them; and such a text is read as what is in it, marked or not. |
| PasswordV1.DefaultHash | internal/password/application/password_service_v1.go:24-31 | The hashes the program makes begin with v1:$argon2id$v=19$m=65536,t=1,p=4$ and end with a digest of 32 bytes made with these parameters. |
| PasswordV1.ParsesExactlyWhen | internal/password/application/password_service_v1.go:55-87 | Exactly which texts are read, and as what: after the mark, if there is one, six fields between dollar signs, the second of them argon2id, the others a version, parameters, a salt and a digest that scan and decode. |
| PasswordV1.MatchesExactlyWhen | internal/password/application/password_service_v1.go:55-95 | Exactly which texts match a password, whoever made them: those that are read as a salt, parameters and a digest that is the one Argon2id makes of the password with these; and which are errors. |
| PasswordV1.CompareOfHash | internal/password/application/password_service_v1.go:55-95 | Comparing a text with a stored hash says exactly whether Argon2id (RFC 9106, uninterpreted) maps both to the same digest under the stored salt and parameters. |
| PasswordV1.PrefixIgnored | internal/password/application/password_service_v1.go:57-57 | A hash with and without the version prefix compares the same. |
| PasswordServer.NewGrpcServer | internal/password/presentation/grpc_server.go:21-32 | The loop registers each service under its version, the last one of a version winning, and makes the last one of all current. |
| PasswordServer.LastOfVersionServes | internal/password/presentation/grpc_server.go:21-32 | Of the services registered under one version the last serves it, and the last one of all is current. |
| PasswordServer.RoutesToMaker | internal/password/presentation/grpc_server.go:48-78 | A hash made by any registered version is routed back to it, matches its password, and asks for an upgrade exactly when that version is not the last one registered. |
| PasswordServer.ComparedByItsVersion | internal/password/presentation/grpc_server.go:48-78 | Any text marked with a registered version is compared by that version's service alone: a match is what it says, whichever password is tried, its errors are passed on, and an upgrade is asked for exactly when it is not the last one registered; any other version is refused. |
| PasswordServer.V1HashMatchesExactly | internal/password/application/password_service_v1.go:55-95 | So a hash of version 1 matches exactly the passwords that Argon2id maps to its digest under its salt, whatever other versions are registered. |
| PasswordServer.FreshHashIsCurrent | internal/password/presentation/grpc_server.go:34-69 | A new hash of a non-empty password matches it and needs no upgrade; an empty password is refused. |
| PasswordServer.UnprefixedIsV1 | internal/password/presentation/grpc_server.go:71-78 | A hash without a version is treated in every way as the same hash marked v1. |
| PasswordServer.ServiceV1WellBehaved | internal/password/application/password_service_v1.go:15-95 | Version 1 meets what the registry laws ask of a version. |
| RateLimiter.LifeBound | pkg/middleware/rate_limiter.go:26-46 | Over every timed trace, with EXPIRE late or never: at most maxRequests counted requests get through per life of the key. |
| RateLimiter.IntervalBound | pkg/middleware/rate_limiter.go:22-49 | Over every timed trace, an interval no longer than k windows lets at most maxRequests * (k + 1) - 1 through. |
| RateLimiter.WindowBound | pkg/middleware/rate_limiter.go:22-49 | For an interval of length L the bound is maxRequests * (ceil(L / window) + 1) - 1; for one window it is 2 * maxRequests - 1. |
| RateLimiter.WindowBoundReached | pkg/middleware/rate_limiter.go:22-49 | That bound is reached, for every positive maximum and window: a timed trace with EXPIRE at once that lets 2 * maxRequests - 1 requests through within one window. |
| RateLimiter.AdmitsAgainExactlyWhen | pkg/middleware/rate_limiter.go:36-46 | A used-up key admits again exactly when its deadline was set and has been reached. |
| RateLimiter.ServedAgainExactlyWhen | pkg/middleware/rate_limiter.go:36-46 | Over every trace: once the maximum of a life of the key is used up, a request is served again exactly from the time of that life's EXPIRE plus one window on, whenever the EXPIRE was issued. |
| RateLimiter.NotServedAgain | pkg/middleware/rate_limiter.go:28-39 | And never while no EXPIRE of it is issued, nor if the life began with an INCR that took effect but reported an error, since then no EXPIRE follows. |
| RateLimiter.AdmittedInLifeExactlyWhen | pkg/middleware/rate_limiter.go:26-46 | Within a life of the key a request gets through exactly when no more INCRs than the maximum took effect in it, its own and those that reported errors included. |
| RateLimiter.RefusedForeverWithoutExpire | pkg/middleware/rate_limiter.go:36-39 | If the EXPIRE never comes, a used-up key refuses for ever. |
| RateLimiter.Limiter.Handle | pkg/middleware/rate_limiter.go:22-49 | One request: served exactly if INCR failed or the count is within the maximum; the key's new count, and its new deadline - one window after the EXPIRE, if that takes effect on a first request - for each way its two commands can go. |
| RoleGate.RequireRoles | pkg/auth/jwt.go:107-138 | The nested loops let a request through exactly if some role of the user is allowed; without claims it is unauthorized. |
| Topology.BindingTakesExactly | cmd/worker-events/main.go:102-107 | The binding takes a prefixed name exactly when the name has no dot (topic matching of section 3.1.3.3 of AMQP 0-9-1). |
| Topology.MatchesWordByWord | cmd/worker-events/main.go:102-107 | A binding without # takes exactly the keys of as many words, each of which it names or leaves open with *; |
| Topology.HashTakesAnyNumber | cmd/worker-events/main.go:102-107 | and a # takes any number of words, none included. |
| Topology.SwitchedExactly | cmd/worker-events/main.go:148-164 | The switch on the routing key, key by key: the two commands under user.register and user.update_roles, the three events under their prefixed names, and nothing else. |
| Topology.PublishedAs | internal/identity/infrastructure/outbox_relay_worker.go:74-74 | The key under which each event is published, and the job the switch runs for it: the commands go out as user.user.register and user.user.update_roles, which no job takes. |
| Topology.PrefixingDeliversExactly | internal/identity/infrastructure/outbox_relay_worker.go:74-74 | Even with the exchanges made the same, exactly the events whose names carry no prefix reach the job they are meant for. |
| Topology.PrefixingTokensFromUserEvents | cmd/worker-events/main.go:148-164 | The configured key mapping keeps token-making jobs to events about stored users. |
| Topology.ConfiguredRoutesNothing | internal/identity/infrastructure/outbox_relay_worker.go:74-74 | As configured, with the exchanges auth.events and auth.commands, nothing the relay publishes reaches the worker's queue. |
| Store.KeyNamesDistinct | internal/identity/application/login_user_usecase.go:106-129 | Tokens of different kinds or different text never share a Redis key. |
| Store.KeysArePrefixed | internal/identity/application/login_user_usecase.go:106-129 | The four Redis prefixes, as the services that share the Redis see them. |

## Left out

- Argon2id, RSA and JWT signing, and TOTP are uninterpreted; the claims of a token are taken to be those it was signed with.
- JSON: payloads are values with one case for text that does not decode; field-by-field decoding errors are not told apart.
- Unicode lower-casing and trimming tables: a parameter, of which the laws need only that it leaves addresses of the pattern alone.
- UUIDs: identifiers are compared as text. One that is malformed is answered as an unknown user, where the database or the restoration reports an error, and both fail the request; one in another letter case is answered as an unknown user, where the database finds it.
- AccountOutcomes.RolesRequestQueues: for identifiers in the letter case in which they are stored; see the line on UUIDs.
- The read repository's lookup by address, which nothing calls, and `NewPasswordServiceV1`'s salt length.
- The HTTP handlers, routing, `getIP`, `extractTokenFromHeader`, telemetry, logging, configuration, gRPC plumbing and process wiring: no hard property.
- Postgres, Redis and RabbitMQ inside: a table with a uniqueness constraint and atomic transactions, a map with expiry times, and a queue that hands out waiting messages in any order. Redis evicts nothing and keeps nanoseconds, where `go-redis` sends whole seconds for these lifetimes.
- Publisher confirms, which the code does not use: a publication that returns no error is taken to be accepted by the broker.
- Losing an acknowledgement on its way shows as a crash of the consumer, after which the message waits again.
- Clocks: the processes, the database and Redis read one clock; the rate limiter is modelled apart, for one key, on a clock of its own.
- The shutdown of the loops: a process may crash between any two operations.
- Background work inside a process: the cache fill of the profile query is the last step of its process, which the others may overtake at any point; it does not overlap with the answer to its own caller.
- Backend.Backend.SelectBatch: rows with the same creation time come in any order, chosen by the environment, and a choice that is no such batch counts as a failed query; an error while scanning one row, which the code skips, is not modelled.
- Consumer.Consume: the loop is proved for a queue to which nothing is added while it drains, since a queue that is fed faster than it is served never drains.
- Redemption.RedeemsExactlyWhen: for uses of a token without faults of their own, and for resets with a password that can be hashed; a faulty one may fail at any point, and `Redemption.ExchangedBeforeDeleted` says what holds of refreshes and verifications with faults too.
- Upgrade.UpgradeLastsExactlyWhen: stated for continuations in which no password reset of the user gets so far as to load it, since a reset gives the user another password; `Upgrade.ResetLastsExactlyWhen` is the law from then on.
- Upgrade.UpgradeConverges: stated without password resets in between, for the same reason.
- Upgrade.PasswordKeepsMatching: for passwords and salts in use of which no other password matches a new hash of this one, since digests have a fixed length and passwords do not.
