# Signup, sessions and event delivery: a verified model

This project models the parts of the booking backend that carry real state and proves what
they guarantee over whole runs:

* the **Kafka producer wrapper** with its shutdown protocol (`KafkaProducer`, `KafkaPublisher`),
* the **Kafka consumer loop** with crashes and restarts, and the notification handlers it runs
  (`KafkaConsumer`, `Notification`),
* the **user service**: OTP signup, rate limit and lockout, refresh-token rotation, Google
  sign-in and the user cache over Redis and the database (`Service` and the modules on it),
* and the halves **together**: handler commands, the producer protocol and the broker in one
  interleaving (`Delivery`, `EndToEnd`), and with the partitions and the consumer in one machine
  (`Pipeline`).

Check everything with `dafny verify dfyconfig.toml`.

## How it is built

`KafkaProducer` is a state machine with one program counter per `Publish` call and per `Close`
caller, any number of both. One action is one critical section, one client call or one channel
operation; an action that is not enabled changes nothing, so a statement about every sequence of
actions is a statement about every interleaving. `KafkaPublisher` holds the imperative object:
its methods perform exactly those steps, with arbitrary steps of everyone else in between.

`Service` gives every handler as a sequence of single Redis or database commands. The results
about the user service are over every interleaving of the commands of any number of calls, with
time passing in between (`Interleaved`). Where a law needs more than that, the hypothesis says
exactly what, and for which key only:

* accounts, identities and the cache need nothing (`Accounts`), nor does who gets in and with what
  (`Logins`, `Origins`, `Tokens`, `Answers`), nor that a code is used up (`OneTime`);
* what a rotation finds in its slot needs nothing; that successful rotations form a chain needs
  that between a rotation's read and its write nothing else reads or writes that one slot, neither a
  rotation nor a sign-in (`Sessions.PerSlot`); that no JTI rotates twice needs only that no other
  rotation reads the slot there (`SingleUse.ReadsApart`), and `SingleUse` says exactly when a token
  is single-use;
* the counters are their streaks exactly when no counter expires under a running streak and none
  outlives it (`OtpLimits.NeverLoses`, `OtpLimits.NeverOutlives`); refusing at the limit and the
  bound on a streak need only the first. How far overlapping calls push the counters is exact
  (`Overshoot`, `OvershootReached`), and so is when a lockout and a revocation hold (`Lockout`,
  `Sessions.RefusalHoldsExactly`).

Runs of atomic calls are among these runs (`Serial`) and meet all of these hypotheses
(`AtomicCorollaries.OneAtATimeIsEnough`); `AtomicCorollaries` states the results for them in terms
of requests and answers.

`Handlers` holds the handlers as methods that change a Redis object (a flat string-keyed map
with a clock), a database object with unique indexes and a foreign key, and the producer object.
Each is proved equal to its run of commands, so the results above are about these methods.

## Assumptions

* One clock in nanoseconds; a Redis entry is live while the clock is below its deadline; `SET`
  with a non-positive duration stores without expiry, as go-redis does.
* Redis commands whose errors the code ignores succeed. In a signup the user lookup, the random
  source, the `SET` of the session and the `DEL` of `RemoveStoredOTP` may each fail
  (`Service.Faults`); a failing command changes nothing. A cache that cannot be read or written is
  modelled too.
* librdkafka gives accurate delivery reports, at most one per private channel, and `Flush` counts
  only messages that were not reported. Under this assumption the branch for an event that is
  not a message is never taken, which is part of the producer's invariant.
* bcrypt, HMAC and JWT signing are ideal; UUIDs are fresh; JSON is exact on the fields it covers.
  Passwords over 72 bytes are refused, as bcrypt does.
* One consumer per group: there is no rebalance.
* In `Delivery` a signup call and its `Publish` share an id; the `Publish` of a welcome event is one
  of the arbitrary other publishers.

## Where the code and its documentation differ

* `user-service/README.md:72-74` describes the rate limit as five codes in an active one-hour
  window. The code renews the window on every send, so the limit is on a streak of codes with gaps
  under an hour, however long the streak lasts (`OtpLimits.StreakIsBounded`); a signup can be
  refused although fewer codes were stored in the last hour (`RateWindow.RefusedBelowTheLimit`);
  and overlapping calls pass the limit (`OvershootReached.OvershootIsReached`).
* `user-service/README.md:11` says that the lookup of `GetUser` is not implemented yet; the code
  implements it, and the model follows the code.
* `SendOTP` accepts any non-empty address, the consumer checks its format. An event for an address
  that the consumer refuses stops its partition, and such a signup is answered like any other
  (`EndToEnd.SignupIsAnsweredForAnyAddress`).

## Model

| member | source | states |
|---|---|---|
| KafkaProducer.InvKept | utils/kafka.go:119-209 | every action of a publisher, a closer, the shutdown closure, the broker, a cancelled context or the watcher keeps the invariant that ties the in-flight counter, the closing flag, the phase of the shutdown and the fate of every message together |
| KafkaProducer.Reachable | utils/kafka.go:119-209 | the invariant holds after every interleaving of any number of calls |
| KafkaProducer.PendingAtCloseIsUnknown | utils/kafka.go:156-209 | a message still with the client when it is closed belongs to a Publish that returned ErrDeliveryUnknown; the count in Close's error is at most the number of those returns, and without any Close returns nil |
| KafkaProducer.NoUseDuringShutdown | utils/kafka.go:120-198 | a call between its Add and its Done, about to Produce, waiting for a report or leaving, never overlaps the client's Flush or Close, and is counted in flight |
| KafkaProducer.ClosingOnlyDrains | utils/kafka.go:133-139 | once closing is set it stays set and the counter never rises, so no Add races with Wait |
| KafkaProducer.ClosedOnceSameResult | utils/kafka.go:186-209 | the client is closed exactly once, before any Close caller returns, and all callers return the same result |
| KafkaProducer.DefiniteErrorNeverLogged | utils/kafka.go:152-178 | any error other than ErrDeliveryUnknown is final: in every later state the message is neither persisted nor with the client |
| KafkaProducer.FatalErrorRefuses | utils/kafka.go:119-131 | once a fatal error is recorded, a call that has not passed its critical section never gets a message to the client, in any interleaving, and returns that very error, or ErrClosing |
| KafkaProducer.RefusalsAreTrue | utils/kafka.go:121-131 | a call is told ErrUnavailable only with the recorded fatal error, and ErrClosing only by a closing producer |
| KafkaProducer.DeliveryErrorWasReported | utils/kafka.go:162-178 | the code of a delivery error is one the broker gave for that very message |
| KafkaProducer.CloseReportsWhatFlushLeft | utils/kafka.go:197-205 | the number in Close's error is that of the messages still with the client when Flush returned, and nil means none |
| KafkaProducer.UnknownLeavesBothOpen | utils/kafka.go:157-161 | ErrDeliveryUnknown really leaves it open: from one and the same return the message can end up in the log or be lost |
| KafkaProducer.StepsOnlyHelp | utils/kafka.go:186-206 | during shutdown no step of anyone adds work and every helpful step removes some |
| KafkaProducer.SomeStepHelps | utils/kafka.go:156-206 | no deadlock: until the shutdown is complete a helpful step is enabled, and it is one of the program's own unless a waiting call has neither report nor cancelled context |
| KafkaProducer.ShutdownIsBounded | utils/kafka.go:186-206 | in any run from a closing state the number of helpful steps is bounded by the work left at its start |
| KafkaProducer.ShutdownCompletes | utils/kafka.go:186-209 | from every reachable closing state some run of helpful steps completes the shutdown |
| KafkaPublisher.KafkaProducerObject.Publish | utils/kafka.go:119-183 | against any interference: the object moves along a run of the machine that ends with this call returned; ErrDeliveryUnknown needs a cancelled context, ErrEnqueue a refused Produce; a closing producer refuses, one with a fatal error answers that error or ErrClosing, and neither refusal is given without its cause; any other error means the message is nowhere |
| KafkaPublisher.KafkaProducerObject.Close | utils/kafka.go:186-209 | along a run of the machine, for a caller that comes before, during or after the shutdown: ends with the client closed once, nobody in flight and the recorded result, which is nil when no Publish returned ErrDeliveryUnknown |
| KafkaPublisher.KafkaProducerObject.WatchEvents | utils/kafka.go:72-115 | the first fatal error is kept whatever follows, everything else changes nothing, and the loop is a run of Watch actions |
| GoErrors.ErrorsIsDeliveryUnknown | user-service/server/internal/kafka/producer/notification.producer.go:47-57 | through both layers of wrapping errors.Is recognises ErrDeliveryUnknown exactly when Publish returned it |
| NotificationProducer.HandleSendPayload | user-service/server/internal/kafka/producer/notification.producer.go:47-65 | nil exactly for a delivered message, which is then in the log; an error that is not ErrDeliveryUnknown means the message is nowhere; a closing or broken producer refuses |
| KafkaConsumer.Reachable | utils/kafka.go:248-295 | committed, stored and position stay in order below the log's end, and first successes count up from 0, through any crashes and restarts |
| KafkaConsumer.NoSilentSkip | utils/kafka.go:248-295 | at least once: every offset below the stored one was handled successfully, however often the process crashed |
| KafkaConsumer.FirstHandlingsAreALogPrefix | utils/kafka.go:257-279 | keeping only first successes, a partition is handled as exactly a prefix of its log, in order |
| KafkaConsumer.FailedMessageNotPassed | utils/kafka.go:263-279 | a message whose handler failed is not passed by the stored offset in any continuation unless a handling after that failure succeeded |
| KafkaConsumer.StoppedStaysStopped | utils/kafka.go:252-289 | after a cancelled context, a fatal error or a crash nothing is handled and no offset stored until a restart |
| KafkaConsumer.OnlyStoringStores | utils/kafka.go:263-279 | a handling that fails, dies or cannot store leaves the stored offset of its partition alone |
| KafkaConsumer.RestartResumesAtTheLastCommit | utils/kafka.go:233-236 | whatever happened since, a consumer restarted after a crash goes on at the offset that the last commit of the partition found stored |
| KafkaConsumer.ReachesExactlyTheAcceptedPrefix | utils/kafka.go:248-295 | some run stores offset n exactly when the handler accepts every message below n; the first one it cannot accept stops the partition for good |
| KafkaConsumer.CatchesUp | utils/kafka.go:248-295 | from any state, restart and polling bring the stored offset to n when all messages below n are accepted |
| KafkaConsumer.Consumer.Consume | utils/kafka.go:248-295 | the loop moves the offsets exactly as the events it saw prescribe; it returns at the first cancelled context, fatal error or crash, and otherwise only at a Poll whose handling or storing failed; it says Cancelled exactly for a cancelled context, the fatal error exactly for one, and HandlerError exactly when its last handling failed |
| Notification.PacketsRoundTrip | user-service/server/internal/kafka/producer/notification.producer.go:16-45 | both packets decode to the fields they were encoded from |
| Notification.DecodesExactly | notification-service/server/internal/kafka/consumer/send_otp_email.go:18-21 | a payload is refused by the decoder exactly when it is no object or one of its fields has the wrong type |
| Notification.SuccessMeansMailed | notification-service/server/internal/kafka/consumer/send_otp_email.go:15-47 | whatever the event, handling succeeds exactly when it is acceptable and its mail went out, which goes to the valid address in its packet; a failed mail is an error |
| Notification.OtpEventDeliverableExactly | notification-service/server/internal/kafka/consumer/send_otp_email.go:15-47 | an OTP event can be handled exactly when the address is valid, the code non-empty and the TTL is positive and small enough for its 64-bit arithmetic; it is mailed to the address that signed up |
| Notification.WelcomeEventDeliverableExactly | notification-service/server/internal/kafka/consumer/verify_otp_email.go:15-45 | a welcome event is mailed to the new account's address exactly when the consumer accepts that address |
| Notification.MisroutedNeverDeliverable | notification-service/server/internal/kafka/consumer/notification.consumer.go:14-32 | no topic, a topic without handler, or a welcome packet on the OTP topic is never handled successfully |
| Notification.ServiceReachesExactlyTheDeliverablePrefix | notification-service/server/internal/kafka/consumer/notification.consumer.go:14-32 | with these handlers a partition can be brought to offset n exactly when its first n messages are deliverable |
| Notification.RefusedAddressStopsThePartition | notification-service/server/internal/kafka/consumer/send_otp_email.go:23-27 | an OTP event for an address the consumer refuses is one that no restart gets past |
| GoTime.MinutesAreTheCeiling | user-service/server/internal/handler.go:101-102 | the minutes in the mail are the ceiling of the TTL whenever the arithmetic fits in 64 bits |
| GoTime.MinutesPositiveExactly | user-service/server/internal/handler.go:101-102 | with wrap-around included, the minutes are positive exactly for a positive TTL at least a minute below 2^63 ns |
| Keys.EncodeInjective | user-service/server/internal/utils.go:205-223 | two well-formed keys with the same string are the same key: the five key families share no entry |
| Keys.RefreshKeysCollideExactly | user-service/server/internal/utils.go:217-219 | two different first arguments can give the same key exactly when one of them followed by a colon starts the other, so a first argument without colons cannot collide |
| Keys.FingerprintKeysAreWellFormed | utils/interceptors/meta.go:65-69 | every device fingerprint is colon-free hex, so every key the service builds is well-formed |
| TimedStore.CommandsRefine | user-service/server/internal/utils.go:205-223 | a command on a key's string is the same command on that one abstract entry and leaves every other entry alone |
| TimedStore.DelAllRefines | user-service/server/internal/utils.go:121 | the same for one DEL of several keys |
| Redis.RedisClient.Incr | user-service/server/internal/utils.go:89 | INCR on the flat map is INCR on the abstract entry, and the flat map keeps representing the abstract store |
| Redis.RedisClient.Expire | user-service/server/internal/utils.go:90 | likewise for EXPIRE |
| Redis.RedisClient.DelAll | user-service/server/internal/utils.go:121 | likewise for DEL of several keys as one command |
| Model.MacAcceptsOnlyItsCode | user-service/server/internal/utils.go:149-160 | for one email and secret the MAC accepts exactly the code it was made from |
| Model.MacBindsEmailAndCode | user-service/server/internal/utils.go:149-160 | for codes without a colon the MAC binds secret, email and code at once, although it joins the two with a colon |
| Model.RefreshTokenVerifiesExactly | utils/auth/token.go:20-45 | a generated refresh token verifies, with its own user and JTI, exactly while the secret is set and its whole-second exp lies ahead |
| Model.AccessTokenVerifiesExactly | user-service/server/internal/utils.go:164-181 | a generated access token verifies, with its own user, exactly while the access secret is set and its whole-second exp lies ahead |
| Model.KindsAreApart | utils/auth/token.go:15-23 | with different secrets neither kind of token passes for the other |
| Model.VerifiesExactlyTheGenuine | utils/auth/token.go:25-45 | whoever made it, a token verifies, to its own claims, exactly when it is signed by HMAC under the non-empty secret and its exp, if any, lies ahead |
| Model.NumericDateIsTheLastSecond | user-service/server/internal/utils.go:168-169 | the exp in a token is the last whole second not later than the computed time |
| Tables.InsertUserKeepsConsistent | user-service/server/models/user.go:10-20 | a create that is not refused keeps ids, emails and foreign keys consistent and every earlier row |
| Tables.InsertUserExactly | user-service/server/models/user.go:10-20 | a user can be created if and only if its id and its email are free, and is then the one new row |
| Tables.InsertLinkKeepsConsistent | user-service/server/models/auth-provider.go:10-18 | a link that is not refused keeps both composite unique indexes and the foreign key, and every earlier row |
| Tables.InsertLinkExactly | user-service/server/models/auth-provider.go:10-18 | a link can be created if and only if its id is free, its user exists and neither composite index has it, and is then the one new row |
| Tables.TransactionKeepsConsistent | user-service/server/internal/handler.go:334-348 | user and link are created together or not at all, and the constraints stay |
| Models.AuthProvider.BeforeCreate | user-service/server/models/auth-provider.go:23-28 | an empty id gets the new UUID, a given one stays, nothing else changes |
| Models.User.BeforeCreate | user-service/server/models/user.go:25-30 | likewise for users |
| Database.DB.CreateUserWithLink | user-service/server/internal/handler.go:334-348 | on failure neither table changed; on success both rows are there and linked |
| Handlers.UserService.GenerateAndStoreOTP | user-service/server/internal/utils.go:51-92 | refuses at the limit and on a failing SET without changing anything; otherwise stores the MAC with the signup data and renews the counter for an hour |
| Handlers.UserService.VerifyAndConsumeOTP | user-service/server/internal/utils.go:94-130 | the right code of a live, unlocked session removes the session and both counters of its email; a wrong one only raises the attempts of its email; anything else changes nothing |
| Handlers.UserService.RemoveStoredOTP | user-service/server/internal/utils.go:41-49 | removes that session's entry and no other, or changes nothing when the DEL fails |
| Handlers.UserService.HandleSendOTP | user-service/server/internal/handler.go:62-134 | with any of its lookup, random source, SET and DEL failing: does what its run of commands does and publishes exactly when a code was stored; an answered session has its event in the log, a call answered with a queueing failure has no event, nor a session unless its DEL failed, and a closing or broken producer never leads to a session id |
| Handlers.UserService.HandleVerifyOTP | user-service/server/internal/handler.go:136-182 | does what its run of commands does, and publishes the welcome event exactly when the account was created, whatever becomes of it |
| Handlers.UserService.HandleLogin | user-service/server/internal/handler.go:184-228 | does what its run of commands does to the store, the tables and the answer |
| Handlers.UserService.HandleRotateRefreshToken | user-service/server/internal/handler.go:230-261 | likewise for rotation |
| Handlers.UserService.LinkGoogleUser | user-service/server/internal/handler.go:295-351 | the three cases of the transaction: found, linked by email, or created, with the tables after it; an error leaves the tables alone |
| Handlers.UserService.CheckClaims | user-service/server/internal/handler.go:270-284 | lets a token through exactly when it is valid, has a non-empty email that is verified and a non-empty subject; a missing token or email is BadRequest, everything else Unauthorized |
| Handlers.UserService.HandleVerifyGoogleIDToken | user-service/server/internal/handler.go:263-373 | claim checks, transaction and session writes as in its run of commands |
| Handlers.UserService.HandleGetUser | user-service/server/internal/handler.go:24-60 | cache hit, fallback and refill as in its run of commands, with the cache up or down |
| Atomic.SendEffect | user-service/server/internal/handler.go:80-133 | a whole signup call keeps its session exactly when Publish returned nil or ErrDeliveryUnknown, and its counter is raised in all three cases |
| Atomic.VerifyEffect | user-service/server/internal/utils.go:94-130 | a whole verification either consumes and tries to create the account, or counts a wrong code, or changes nothing |
| Atomic.RotateEffect | user-service/server/internal/handler.go:230-261 | a verified token rotates exactly when its JTI is the live one of its slot; any other verified token leaves the slot without a live JTI |
| Atomic.SignInEffect | user-service/server/internal/handler.go:219-226 | a sign-in that succeeds stores its JTI in the slot of its device and user; a failed one leaves the world alone |
| Answers.RefusedAtOnceExactly | user-service/server/internal/service.go:28-218 | in every reachable state a call has been refused for its arguments or Google claims exactly when they call for it, with exactly that answer, and such a call never changes anything |
| Answers.SignupLookupDecides | user-service/server/internal/handler.go:80-93 | in every interleaving a signup goes on past its lookup exactly when the lookup works, no account has its email and the password has at most 72 bytes; each refusal exactly in its case |
| Answers.RegisteredEmailGetsNoCode | user-service/server/internal/handler.go:80-131 | in every interleaving, once an email has an account every signup that looks it up is answered AlreadyExists, unless its lookup fails, and stores nothing |
| Answers.SendAnswersExactly | user-service/server/internal/handler.go:62-134 | a whole signup: every answer exactly in its case, on the request, the rows and the counter |
| Answers.VerifyAnswersExactly | user-service/server/internal/handler.go:151-181 | a whole verification creates the account exactly when the stored code is right, its email not locked and id and email are free; each other answer exactly in its case |
| Answers.LinkedIdentitySignsIn | user-service/server/internal/handler.go:297-309 | a linked Google identity opens its account, whatever the email claim, and changes no table |
| Answers.KnownEmailIsLinked | user-service/server/internal/handler.go:314-330 | an unlinked identity whose verified email has an account is linked to that account and opens it, exactly when no link is in the way; otherwise nothing changes |
| Answers.NewIdentityIsCreated | user-service/server/internal/handler.go:332-350 | an unlinked identity with a new email gets an account with its names and no password, and its link, exactly when both ids are free; otherwise nothing changes |
| Answers.LookupAnswersExactly | user-service/server/internal/handler.go:24-60 | in every reachable state a lookup answers the fields of the account's row, or NotFound exactly without one |
| Logins.LoginAnswersExactly | user-service/server/internal/handler.go:192-209 | a whole login succeeds exactly when some row has its email and password; IncorrectPassword exactly for a row with another password or none, EmailNotFound exactly without a row |
| Logins.LoginAnsweredExactly | user-service/server/internal/handler.go:192-227 | in every interleaving a login is answered exactly so, on the rows its lookup found, and is told the profile of that account |
| Logins.SignupPasswordOpensIt | user-service/server/internal/handler.go:87-227 | in every interleaving the account of a verified signup is opened by every later login with the password of that signup and with no other, and shows the names given there |
| Tokens.AnsweredTokensVerify | user-service/server/internal/handler.go:211-260 | in every interleaving the tokens of a SignedIn answer verify for the account in the answer and those of a Rotated answer for the user of the presented token, each under its own secret only and until its own expiry, counted from the moment the call issued them; a rotation only succeeds on a token signed by HMAC under the refresh secret and not expired |
| Tokens.CheckDecides | user-service/server/internal/handler.go:232-236 | a rotation that presents any other token is answered TokenInvalid and changes nothing |
| Origins.EveryRowHasItsOrigin | user-service/server/internal/handler.go:136-354 | in every interleaving a row that the initial database did not have is the account of a verified signup, with the details and password given there, or of a Google token with a verified email; and a link was made by such a token for its own identity and the account of its own email |
| Origins.GoogleSignInIsEntitled | user-service/server/internal/handler.go:270-373 | in every interleaving a Google call is answered BadRequest or Unauthorized exactly for a bad token, and one answered with tokens opens the account its identity is linked to, by a link that was there from the start or was made by a token with that account's verified email |
| OtpLimits.CounterIsStreak | user-service/server/internal/utils.go:53-126 | in every interleaving the counter that the handlers read is, at every point, the number of INCRs that followed each other with gaps under an hour since the last DEL of a successful verification, if and only if it neither expires while that streak runs nor outlives it |
| OtpLimits.CountsNoLessExactly | user-service/server/internal/utils.go:89-126 | in every interleaving the counter is never behind its streak if and only if it never expires while the streak runs |
| OtpLimits.CountsNoMoreExactly | user-service/server/internal/utils.go:89-126 | in every interleaving the counter is never ahead of its streak if and only if it never outlives it |
| OtpLimits.LossNeedsAPendingExpire | user-service/server/internal/utils.go:89-90 | in every interleaving a counter that expires under a running streak does so while some call stands between its INCR and its EXPIRE |
| OtpLimits.PromptIsExact | user-service/server/internal/utils.go:89-126 | where no time passes between a call's INCR and its EXPIRE neither happens |
| OtpLimits.SendRefusedWhenFull | user-service/server/internal/utils.go:55-63 | a signup that reaches the rate check while the running streak of its email is at the limit is refused, in every run that lost no count |
| OtpLimits.SendRefusedExactly | user-service/server/internal/utils.go:55-63 | a signup that reaches the rate check passes it exactly when the running streak of its email is below the limit, in every run whose counter neither expired under its streak nor outlived it |
| OtpLimits.VerifyRejectedWhenFull | user-service/server/internal/utils.go:107-113 | a verification that checks its attempts while the running streak of wrong codes is at the maximum is rejected, right code included, in every run that lost no count |
| OtpLimits.VerifyAcceptsExactly | user-service/server/internal/utils.go:107-128 | a verification that has read its session goes on to consume it exactly when its code is right and the running streak of wrong codes is below the maximum, and counts a wrong code otherwise, in every run whose counter neither expired under its streak nor outlived it |
| OtpLimits.LockoutEnds | user-service/server/internal/utils.go:125-126 | an hour after the last counted wrong code the right code is accepted again, in every run whose counter outlived no streak |
| OtpLimits.StreakIsBounded | user-service/server/internal/utils.go:53-126 | INCRs of one counter with consecutive gaps under an hour and no DEL in between number at most its maximum plus n - 1, where n calls use the counter at once, in every run that lost no count; one at a time means the maximum |
| LateExpiry.LateExpireLosesTheCount | user-service/server/internal/utils.go:89-90 | counts do get lost: for both counters and every maximum of at least two some run reads 0 while a streak of the maximum is running, because the old expiry passed between a call's INCR and its EXPIRE |
| LateExpiry.LateExpireOutlivesTheStreak | user-service/server/internal/utils.go:89-126 | and counters do outlive their streak: for both and every positive maximum some run still reads 1 an hour and five minutes after the last INCR, because its EXPIRE came late |
| Lockout.LockedOutForAnHour | user-service/server/internal/utils.go:107-128 | in every interleaving: once a wrong code has filled the counter and nobody stands at the DEL for that email, every verification for it that reads the counter within the hour is rejected and changes nothing, right code or fresh session included |
| Lockout.LockHoldsExactly | user-service/server/internal/utils.go:115-126 | a full counter stays full in every continuation up to its expiry if and only if no verification of that email stands at its DEL |
| Lockout.LockoutEscaped | user-service/server/internal/utils.go:120-126 | for every maximum some run from an empty system counts that many wrong codes and then lets through a verification whose code was compared before, which clears the counter |
| RateWindow.RefusedBelowTheLimit | user-service/server/internal/utils.go:55-91 | for every maximum of at least two some run refuses a signup although fewer codes than the maximum were stored for its email in the last hour |
| Sessions.SlotIsCurrent | user-service/server/internal/handler.go:219-258 | in every interleaving a slot's entry is exactly the one that the last sign-in, rotation or revocation on it left |
| Sessions.RotatesExactly | user-service/server/internal/handler.go:230-260 | in every interleaving a rotation whose token verifies ends in success exactly when at its read its JTI is the last one written to its slot, nothing revoked the slot since and the entry's lifetime is not over |
| Sessions.LatestTokenIsAccepted | user-service/server/internal/utils.go:183-201 | in every interleaving the latest token of a slot rotates for as long as it verifies: the stored JTI never expires before the token that carries it |
| Sessions.RotationsFormAChain | user-service/server/internal/handler.go:230-260 | where between a rotation's read and its write of a slot no rotation reads it and no sign-in or rotation writes it, each rotation that writes it presents the JTI that is the last one written there at that moment |
| Sessions.ReuseRevokesTheSlot | user-service/server/internal/handler.go:245-249 | once a verified token is refused on a slot while no other rotation stands at its write there, every rotation that reads the slot later fails, the current token's included, until the next sign-in on it |
| Sessions.RefusalHoldsExactly | user-service/server/internal/handler.go:242-258 | a refusal keeps its slot without live session in every continuation without a sign-in there if and only if no other rotation stands at its write on it |
| Sessions.LateStoreOpens | user-service/server/internal/handler.go:258 | a rotation that stands at its write opens the slot again, whatever was refused there meanwhile |
| SingleUse.SingleUseExactly | user-service/server/internal/handler.go:241-258 | of two finished rotations with the same JTI both succeeded if and only if at some moment both had read their slot successfully and neither had written it |
| SingleUse.JtiRotatesOnce | user-service/server/internal/handler.go:241-258 | where no rotation reads a slot while another stands between its read and its write there, no JTI rotates twice, whatever else overlaps, sign-ins and revocations on that slot included |
| RotationRace.OverlappingRotationsBothSucceed | user-service/server/internal/handler.go:241-258 | in every state whose slot holds the token's JTI two rotations that both read before either writes both succeed |
| RotationRace.RaceIsReachable | user-service/server/internal/handler.go:241-258 | for every configuration whose tokens live at least a second such a run starts from an initial state with a sign-in |
| RotationRace.RevokedSlotOpensAgain | user-service/server/internal/handler.go:241-258 | for every such configuration some run from an initial state refuses a stale token and revokes the slot while another rotation stands at its write, and after that write a rotation with the token it answered succeeds, without a sign-in |
| AtomicCorollaries.RotatesExactly | user-service/server/internal/handler.go:230-260 | with atomic calls a verified rotation answers with new tokens exactly when its JTI is the current one of its slot |
| AtomicCorollaries.JtiRotatesOnce | user-service/server/internal/handler.go:245-258 | with atomic calls each JTI rotates at most once, on any slots |
| AtomicCorollaries.ReuseRevokesTheSlot | user-service/server/internal/handler.go:245-249 | with atomic calls every rotation on a slot after a refused one answers session expired until someone signs in there |
| AtomicCorollaries.OneAtATimeIsEnough | user-service/server/internal/handler.go:24-373 | calls one at a time, with time passing only in between, meet every hypothesis of the interleaved results on counters, slots and overlap |
| AtomicCorollaries.AtMostMaximumPerStreak | user-service/server/internal/utils.go:53-126 | with atomic calls, stored codes of one email, or wrong codes brought to its sessions, that follow each other with gaps under an hour and no successful verification in between number at most the maximum |
| Interleaved.StepOk | user-service/server/internal/handler.go:24-373 | one command of any handler keeps the tables consistent, every store entry tied to the request or row it came from, and only adds rows |
| Interleaved.Reachable | user-service/server/internal/handler.go:24-373 | so does every interleaving of commands of any number of calls with time passing |
| Accounts.OneAccountPerEmailAndSession | user-service/server/internal/handler.go:151-168 | in every interleaving two successful verifications have different emails and different sessions |
| Accounts.AccountComesFromMatchingSession | user-service/server/internal/utils.go:98-122 | the account of a successful verification carries names, email and password hash of the SendOTP call whose session it named and whose code it brought |
| OneTime.ConsumedCodeIsUsedUp | user-service/server/internal/utils.go:98-122 | in every interleaving, once a verification has consumed a session every verification that reads it from then on is rejected, whatever code it brings |
| Accounts.AccountIsLookedUpAsSignedUp | user-service/server/internal/handler.go:24-60 | in every interleaving the account of a verified signup is looked up with the names and email given at signup |
| Accounts.IdentityKeepsItsAccount | user-service/server/internal/handler.go:298-351 | a Google identity that signed in once resolves to the same account in every later sign-in of every continuation, whatever its email claim says |
| Accounts.CommandAddsAtMostOneRow | user-service/server/internal/handler.go:296-354 | from every reachable state a command adds at most one user and one link, keeps every constraint, and a failed transaction changes nothing |
| Accounts.CacheAgreesWithDatabase | user-service/server/internal/handler.go:24-60 | in every reachable state a lookup answers what the database alone would, with the cache up or down, and so do answers of overlapping lookups |
| Accounts.CacheServesForItsLifetime | user-service/server/internal/handler.go:28-58 | in every interleaving, for the cache lifetime after a sign-in or a lookup that could write the cache, every lookup that can read it is answered from it in one command, with what the database holds |
| Overshoot.OvershootIsBounded | user-service/server/internal/utils.go:55-126 | with at most n overlapping calls for an email, each OTP counter with its decided increments exceeds its maximum by at most n - 1, through expiries and deletes |
| Overshoot.CountersExpire | user-service/server/internal/utils.go:89-90 | in every reachable state a counter expires within an hour unless a call stands between its increment and its expiry |
| OvershootReached.OvershootIsReached | user-service/server/internal/utils.go:55-126 | the bound is exact for both counters: for every maximum and every n some run with at most n overlapping calls brings the counter to the maximum plus n - 1 |
| Serial.AtomicRunIsInterleaved | user-service/server/internal/handler.go:24-373 | every run of atomic calls is an interleaved run with the same world and the same answers, in which calls are one at a time and time passes only between them |
| Delivery.WholeKept | user-service/server/internal/handler.go:96-124 | every handler command, producer step and tick keeps the invariant that ties each signup's session and answer to its message at the broker |
| Delivery.LoggedEventHasItsSession | user-service/server/internal/handler.go:96-124 | an OTP event in the Kafka log has its session in Redis exactly as stored until it times out, unless a verification with that session's own code consumed it |
| Delivery.RemovedSessionHasNoEvent | user-service/server/internal/handler.go:104-120 | from the moment the publish-failure path decides to remove a session, its event is in no later state in the log or with the client, and after the answer the session never comes back unless its DEL failed |
| Delivery.SentMeansLogged | user-service/server/internal/handler.go:104-123 | a signup answered with a session id has its event in the log |
| Delivery.BrokenProducerSendsNothing | user-service/server/internal/handler.go:104-123 | from the moment the producer has a fatal error, a signup that has not called Publish never gets its event to the broker and is never answered with a session id, in any interleaving |
| EndToEnd.LoggedRefusedAddressStopsThePartition | notification-service/server/internal/kafka/consumer/send_otp_email.go:23-27 | a logged event of a signup whose address the consumer refuses is one that no restart gets past |
| EndToEnd.SignupIsAnsweredForAnyAddress | user-service/server/internal/service.go:36-69 | for every non-empty address some run answers its signup with a session id and has its event in the log; if the consumer refuses the address that stops every partition with the event |
| Pipeline.InvKept | user-service/server/internal/handler.go:96-124 | every step of handlers, producer, broker and consumer keeps every partition carrying exactly the events of the calls whose messages the broker persisted there |
| Pipeline.EveryEventIsOneRecord | utils/kafka.go:141-178 | in every run of the pipeline a persisted message is exactly one record of one partition, and every record is a persisted message |
| Pipeline.Halves | utils/kafka.go:248-295 | a run of the pipeline is a run of handlers, producer and broker beside a run of the consumer that honours its handlers |
| Pipeline.MailedCodeIsTheAcceptedOne | user-service/server/internal/handler.go:96-124 | at every moment of every run of the pipeline, crashes included: a signup's record that the stored offset has passed was mailed to the address that signed up, with its name, code and minutes; and unless its session was consumed with its own code, has timed out or its email is locked, the mailed code and no other is accepted at that moment |
| Pipeline.PassesExactlyTheDeliverable | utils/kafka.go:248-295 | from every reachable state some continuation passes a record if and only if it and every record before it in its partition is deliverable, whatever handlers, producers and broker go on to do |
| Pipeline.SignupPassesExactly | notification-service/server/internal/kafka/consumer/send_otp_email.go:15-47 | a signup's record can be passed exactly when all records before it are deliverable, its address is one the consumer accepts, its code is not empty and the TTL is positive and at least a minute below 2^63 ns |

## Left out

- SingleUse.JtiRotatesOnce: assumes that no rotation reads a slot while another stands at its write there, because otherwise it is false; SingleUse.SingleUseExactly says when, and RotationRace.RaceIsReachable gives the run.
- Sessions.ReuseRevokesTheSlot: assumes that no other rotation stands at its write when the token is refused, because otherwise it is false; Sessions.RefusalHoldsExactly says when, and RotationRace.RevokedSlotOpensAgain gives the run.
- OtpLimits.StreakIsBounded: like OtpLimits.SendRefusedWhenFull and OtpLimits.VerifyRejectedWhenFull, assumes that no count was lost, because a lost count starts the counter from nothing under a running streak; OtpLimits.CountsNoLessExactly says in which runs that happens, and LateExpiry.LateExpireLosesTheCount gives one whose streak is full.
- OtpLimits.LockoutEnds: assumes that no counter outlived its streak; OtpLimits.CountsNoMoreExactly says in which runs one does, and LateExpiry.LateExpireOutlivesTheStreak gives one.
- Lockout.LockedOutForAnHour: assumes that nobody stands at the DEL for the email, because otherwise it is false; Lockout.LockHoldsExactly says when, and Lockout.LockoutEscaped gives the run.
- OvershootReached.OvershootIsReached: for maxima of at least one, since a counter whose maximum is not positive is never raised, and for a positive rate limit, since without a signup there is no session to guess at.
- Accounts.CacheAgreesWithDatabase: profiles are compared on id, names, email and verification flag; a GetUser answer carries no times, and the creation and update times of the cached row, which the database rounds, are not in the model.
- KafkaConsumer.Reachable: one consumer per group; rebalances, and the process dying between INCR and EXPIRE in the user service, are not modelled.
- Handlers.UserService.HandleLogin: database errors other than "not found" and failing token signing end a call other than SendOTP with an error and are not modelled; nor is a failing Redis read outside GetUser.
- Time-outs of Redis and database commands by the handlers' contexts; cancellation of a Publish by its context is modelled.
- The digit loop of generateNumericOTP, environment loading and metadata trimming: they would add only easy members.
- gRPC servers, health checks, signal handling and the main functions: plumbing.
- Mailer calls, templates, address parsing, logging and topic creation; sending a mail is an arbitrary success or failure.
- Booking, payment and search services: each returns a constant.
- bcrypt, HMAC, SHA-256 and JWT as algorithms.
