# A verified model of go-microservice

A Dafny model of the parts of go-microservice whose correctness depends on how steps interleave, with proofs of
what they guarantee. `dafny verify dfyconfig.toml` checks the whole project.

## What is modelled

**Delivery and notification** (`XDeath`, `Topics`, `Topology`, `Bus`, `BusInvariant`, `BusSteps`, `BusTally`,
`DeliveryGuarantees`, `MailSafety`, `MailsPerProcess`, `BusTermination`, `OneMessage`, `PermanentFailure`, `Journeys`,
`RetryBound`, `Spillover`, `Undisturbed`, `Consumer`). RabbitMQ consumers with a retry queue and a DLQ each, and the
notification handler behind one of them. `Bus` is a state machine: any number of queues and consumer processes, every
copy of a message with its headers and place, every delivery with the point its handle call has reached, the
notifications table and the DLQs. One action is one effect that others can see: a delivery, an existence check, a mail,
an insert, a publish, an ack or nack, an expiry, a closed channel, a crash. Every remote call can succeed, fail, or take
effect and still report an error. `Consumer.System` is the program itself - the consume loop, `handle`, `park`, the
handler - as methods that perform one effect after the other on that shared state, with arbitrary interference before
each (a script of other actions, and of how the program's own effects fare); every execution is proved to be a run of
`Bus`, so everything proved of runs holds of it, and one that nothing disturbs (an empty script) is proved to be one
exact sequence of effects, with what they come to (`Undisturbed`). The retry count the program reads is computed from
the `x-death` header by a method with the original's scan. `OneMessage` follows one copy of a message among any other
traffic, and `Journeys` and `Spillover` build, for every configuration, runs from the empty system that show what is not
guaranteed.

**Refresh tokens** (`Tokens`, `AuthService`): concurrent Login, Refresh and Logout calls, each a sequence of separate
store operations, with store errors and expiry; and the service's methods as runs of that machine.

**Rate limiting** (`RateLimit`): Redis counters with deadlines on a millisecond clock, the script, the middleware.

**Users and their events** (`Users`, `UserService`, `EndToEnd`): concurrent creations, updates and deletions on a
table with a UNIQUE email, the events they publish, and the composition with the delivery protocol.

**List requests** (`Query`, `Pagination`, `Listing`): parsing, filtering, ordering and paging, in 64-bit arithmetic.

`Text` holds string splitting and joining, decimal integers and white space; `Wrappers` an option type and a lemma about finite maps.

## What the environment is taken to do

- The broker loses no message. Dead-lettering keeps one `x-death` entry per queue and reason, counts it up and moves it
  to the front. Requeueing leaves headers alone. A publish that reports no error has reached its queue. Messages are
  first published without `x-death`.
- A retry may expire at any time; a topic exchange delivers one copy to each queue bound by a matching pattern.
- Only the user service publishes events under `user.created`; other publishers may put undecodable bytes on the queues.
- Each SQL statement, with the commit of the transaction it ends, is one atomic step that respects UNIQUE constraints.
- UUIDs are fresh, and tokens are not guessed: a client presents a token it was given, or a string that is no token.
- A Redis key is gone from the millisecond in which its time to live has elapsed - `RateLimit.RetryAfterIsEnough` needs
  that very millisecond for a request denied as its window opens - and EXPIRE with no positive time deletes the key at once.
- A Send that returns an error counts as no mail.
- The database orders text by a total preorder, and may order rows that tie in any way, each query anew.

## Where the code departs from its documentation

The model follows the code; each departure is stated with the exact condition under which the documentation is right.

- pkg/messaging/rabbitmq/consumer.go:51-53 promises that a permanently failing message ends up on the DLQ. Take any copy
  of an event on any queue, not parked before, whose existence checks do not fault, whose failure gets on record, and whose
  handler, if it is another than the notification service's, always fails; whatever else happens - fan-out, republished
  events, closed channels, crashes, lost acks, inserts of any outcome. Once its queue is at rest, no ack of it being lost, it
  is on the DLQ if and only if the first attempt to publish it there took effect or its handler makes no existence check
  (another service's handler, or a payload that does not decode): the failure is recorded before parking, so otherwise a
  redelivery finds the row and is acknowledged (`PermanentFailure.DlqIffFirstParkingTookEffect`, `Journeys.DlqCanMiss`).
- The same lines promise that such a message is never retried forever. Its handler runs are bounded, however parking fares,
  if and only if its handler makes an existence check (`RetryBound.BoundedIff`): then by max(0, maxRetries) + 2 and one more
  for each loss of a delivery (`RetryBound.RetriesEnd`); otherwise it is retried for as long as publishing to its DLQ fails
  (`Journeys.ParkedInVainForEver`) and no longer, since every requeue is a lost delivery or a failed parking
  (`RetryBound.RequeuesArePaid`). In general every run is bounded by the work it began with and ten steps for each requeue
  (`BusTermination.RequeuesBoundTheRun`).
- pkg/messaging/rabbitmq/topology.go:14-16 promises that one consumer's failures are not retried against another. An
  expiring retry reaches every consumer whose pattern matches this one's (`Topology.ExpiryReaches`), so two consumers of one
  key get each other's (`Topology.OneKeyIsOverheard`), and a consumer that has handled a message is handed it again
  (`Spillover.RetriedAgainstAnother`). What is private is the retry budget (`XDeath.RoundsAreCountedPerQueue`) and the way to
  the retry queue (`Topology.RejectionStaysPrivate`).
- services/notification/internal/notification/service.go:79-81 says that no email was sent for a failed row. With one
  notifying process, dead or alive, among any number of other consumers, that is so if and only if no insert about the
  event was refused (`MailSafety.FailedRowIsTrueIff`); for every configuration there is a run in which it is not
  (`Journeys.MailedYetFailed`). In general a failed row implies that the retries were exhausted
  (`DeliveryGuarantees.RowsTellTheTruth`).
- docs/auth.md:151 says that a stolen token can only be used once. It holds of a token whose own refreshes do not overlap
  (`Tokens.RedeemedAtMostOnce`). At any moment, two refreshes can still both redeem it if and only if each has done so, or
  has read it and not yet deleted it, or is about to read it while it is stored (`Tokens.BothCanRedeemIff`,
  `Tokens.OneTokenRedeemedTwice`).
- docs/rate-limiting.md:60 speaks of `2N` requests in a short window; in one window length it is at most 2N - 1, which
  is reached (`RateLimit.AnyInterval`, `RateLimit.BoundIsReached`). A window below one second limits nothing
  (`RateLimit.LimitedIffWholeSecond`).
- docs/pagination.md:16 says that `limit=0` becomes 1; a limit below 1 becomes 10 (`Pagination.NewParams`).
- Pages tile a listing only if the sort leaves no two matching rows tied (`Listing.PagingIsCompleteIff`), and a page
  number whose offset exceeds 64 bits shows rows again (`Pagination.PageExactIff`).

## Model

| member | source | states |
|---|---|---|
| XDeath.RetriesSoFar | pkg/messaging/rabbitmq/consumer.go:141-168 | the scan, with its early returns and type switches, yields the count of the first readable entry about the retry queue, and 0 for any malformed header |
| XDeath.ScanIsFirstReadable | pkg/messaging/rabbitmq/consumer.go:150-166 | entries that are no table, about other queues, or without an integer count never influence the result |
| XDeath.ExpiryCountsOneCycle | pkg/messaging/rabbitmq/consumer.go:135-140 | a TTL expiry in q's retry queue raises the count read for q by exactly one, wherever the entry stood in the header |
| XDeath.ForeignDeathKeepsCycles | pkg/messaging/rabbitmq/consumer.go:155-157 | a dead-lettering from any other queue leaves the count read for q unchanged |
| XDeath.RoundsAreCountedPerQueue | pkg/messaging/rabbitmq/topology.go:12-16 | over any sequence of rejected-and-expired rounds through any consumers, the count read for q grows by the number of rounds through q: budgets are independent |
| XDeath.RetryNameInjective | pkg/messaging/rabbitmq/topology.go:79-82 | two queues share a retry queue name if and only if they are the same |
| Topics.MatchIffSpans | pkg/messaging/rabbitmq/topology.go:57 | a key matches a routing pattern if and only if it divides into spans, one per pattern word, of the length that word stands for |
| Topics.DottedMatchIffSpans | pkg/messaging/rabbitmq/topology.go:57 | the same of the texts: words are what the dots of pattern and key separate |
| Topics.PatternMatchesItself | pkg/messaging/rabbitmq/topology.go:61-65 | every pattern used as a dead-letter routing key matches itself |
| Topology.DeclareConsumerTopology | pkg/messaging/rabbitmq/topology.go:40-77 | carries out a prefix of the declaration plan in order, stops only at a refusal or a lost channel, and succeeds exactly when the whole plan is in place; then the consumer is wired and its queues keep and pass on what they get as WiredKeeps says |
| Topology.DeclaredIsWired | pkg/messaging/rabbitmq/topology.go:25-36 | after the whole plan, every exchange, queue and binding that retrying relies on is there, each queue with its arguments |
| Topology.WiredKeeps | pkg/messaging/rabbitmq/topology.go:52-72 | of every wired consumer: its own queue and its DLQ have no TTL and the DLQ dead-letters nothing; the retry queue's TTL is RetryTTL in whole milliseconds; a rejected message goes to `<queue>.retry.exchange` under the key it has, an expired one to the exchange under the consumer's key |
| Topology.WiringLasts | pkg/messaging/rabbitmq/topology.go:37-39 | no later declaration, complete or cut short, of any plan by anyone, undoes a consumer's wiring |
| Topology.RedeclaringChangesNothing | pkg/messaging/rabbitmq/topology.go:37-39 | declaring again succeeds and leaves the broker as it was, at every point of the plan |
| Topology.RoundsNeverLoseTheMessage | pkg/messaging/rabbitmq/topology.go:30-33 | in every round, a message that reached the queue by a matching key goes to the retry queue when rejected and back when it expires, although its key becomes the pattern |
| Topology.DeclaringBindsOwn | pkg/messaging/rabbitmq/topology.go:57-70 | a declaration, complete or cut short, binds nothing but its own consumer's queues |
| Topology.RejectionStaysPrivate | pkg/messaging/rabbitmq/topology.go:52-70 | a rejected message goes to no other consumer's retry queue |
| Topology.ExpiryReaches | pkg/messaging/rabbitmq/topology.go:61-65 | an expiring retry reaches a queue if and only if it is the main queue of a consumer bound to the exchange by a pattern that matches the retried one's |
| Topology.OneKeyIsOverheard | pkg/messaging/rabbitmq/topology.go:14-16 | any two consumers of one exchange and key, with names of their own, declared on an empty broker, get each other's expiring retries |
| Spillover.RetriedAgainstAnother | pkg/messaging/rabbitmq/topology.go:12-16 | for every configuration that routes q's retries to another queue too and lets q retry, a run from the empty system in which that queue's consumer has handled a message and is handed it again because q's consumer failed it |
| Topology.WiredConsumersMakeValidConfig | pkg/messaging/rabbitmq/topology.go:40-77 | consumers so declared meet every condition the delivery protocol is proved under |
| Consumer.System.CreateSent | services/notification/internal/notification/repository.go:31-39 | the insert is the protocol's insert; it reports a conflict exactly when the event has a row already, an error exactly on either that or a fault, and no error only with a sent row in place |
| Consumer.System.HandleUserCreated | services/notification/internal/notification/service.go:38-77 | whatever others do between its effects, the call is a run of the protocol, and returns no error only if the event has a row; undisturbed, its effects are exactly check, or check, send, insert |
| Consumer.System.SendAndRecord | services/notification/internal/notification/service.go:48-76 | sends before it records; a failed send is an error with nothing recorded; undisturbed, exactly send then insert |
| Consumer.System.RecordSent | services/notification/internal/notification/service.go:61-76 | a lost race for the row is success, any other failed insert an error; success leaves a row in place |
| Consumer.System.RecordFailure | services/notification/internal/notification/service.go:82-94 | is a run of the protocol that leads on to parking, row or no row; undisturbed, exactly one insert |
| Consumer.System.AckOrNack | pkg/messaging/rabbitmq/consumer.go:83-95 | others act; then the delivery is settled, with effect exactly if the call goes through and its channel is open at that moment, and the process is free for the next |
| Consumer.System.ParkDelivery | pkg/messaging/rabbitmq/consumer.go:111-133 | publish then ack, or requeue if the publish reported an error, as a run of the protocol; undisturbed, exactly those two effects |
| Consumer.System.Handler | services/notification/cmd/api/main.go:153-161 | a payload that does not decode fails with no effect; for the notification queue no error means that the event has a row |
| Consumer.System.RetryOrPark | pkg/messaging/rabbitmq/consumer.go:91-101 | the branch taken is the one the x-death count dictates; undisturbed, the effects are exactly a nack, or those of giving up |
| Consumer.System.GiveUp | pkg/messaging/rabbitmq/consumer.go:98-101 | exhaustion is recorded before parking, and only for a queue that has a callback; undisturbed, exactly record, publish, ack |
| Consumer.System.Handle | pkg/messaging/rabbitmq/consumer.go:73-102 | every execution is a run of the protocol that settles the delivery, unless the process dies, and leaves the process in no other call; undisturbed, the sequence of effects is fixed exactly by body, queue, row and count, and on an open channel comes to what HandleComesTo says |
| Undisturbed.HandleComesTo | pkg/messaging/rabbitmq/consumer.go:73-133 | what an undisturbed call comes to: garbage is dropped; a first user.created event is mailed, gets a sent row with its address, and is acknowledged; one with a row already is acknowledged only; a payload that does not decode waits for its retry while the count read is below maxRetries, and otherwise gets a failed row, unless it has one, and leaves its body on the DLQ; no other copy or call is touched |
| Consumer.System.NextDelivery | pkg/messaging/rabbitmq/consumer.go:60-69 | finds a delivery waiting in the instance's channel, or there is none |
| Consumer.System.Consume | pkg/messaging/rabbitmq/consumer.go:54-71 | the loop, against any interference, is a run of the protocol and keeps every invariant of it; it ends early only if the process died or nothing is waiting |
| BusSteps.StepKeepsInv | pkg/messaging/rabbitmq/consumer.go:73-133 | every action keeps the control invariant: an open delivery holds its copy, one call at a time, exhausted calls are exhausted, handled copies have rows, rows and letters are what they claim |
| BusSteps.HeadersStayTrue | pkg/messaging/rabbitmq/consumer.go:135-140 | every action keeps each copy's header in agreement with the cycles its lineage completed, for every consumer |
| BusTally.StepKeepsTally | pkg/messaging/rabbitmq/consumer.go:104-133 | every action keeps deliveries equal to cycles plus requeues plus the one under way, and DLQ letters as counted |
| BusTally.RunKeepsGood | pkg/messaging/rabbitmq/consumer.go:73-133 | all of these hold after every run |
| DeliveryGuarantees.NoSilentLoss | pkg/messaging/rabbitmq/consumer.go:47-53 | in every reachable state a decodable copy is live, or on its DLQ, or handled - and then, for notifications, its event has a row |
| DeliveryGuarantees.RetryCountIsCyclesCompleted | pkg/messaging/rabbitmq/consumer.go:91-96 | in every reachable state the count read equals the completed cycles of the lineage and never exceeds max(0, maxRetries) |
| DeliveryGuarantees.RequeueKeepsCount | pkg/messaging/rabbitmq/consumer.go:121-127 | a crash, a closed channel or a requeue after failed parking changes no count |
| DeliveryGuarantees.LostDeliveryComesBack | pkg/messaging/rabbitmq/consumer.go:47-53 | the process or channel that holds a copy may go at any time; the copy is then back on its queue, unchanged but for the redelivery, and any other consumer of the queue can get it |
| DeliveryGuarantees.AttemptBound | pkg/messaging/rabbitmq/consumer.go:91-101 | a copy's handler runs never exceed max(0, maxRetries) + 1 plus its redeliveries that were no retry |
| DeliveryGuarantees.ParkedExactly | pkg/messaging/rabbitmq/consumer.go:104-133 | a copy parked without ever being requeued had exactly max(0, maxRetries) + 1 runs, less the cycles it inherited if it was fanned out, and left exactly one letter, with its body |
| DeliveryGuarantees.LettersBound | pkg/messaging/rabbitmq/consumer.go:104-110 | duplicates on the DLQ are bounded: a copy never leaves more letters than one, and one for each redelivery that was no retry |
| DeliveryGuarantees.FirstRowStands | services/notification/internal/notification/service.go:61-74 | the first row committed for an event is never changed or replaced, over any run |
| DeliveryGuarantees.RowsTellTheTruth | services/notification/internal/notification/service.go:79-94 | a sent row implies a mail accepted by the call that wrote it; a failed row implies more than maxRetries failed runs in its lineage at this consumer |
| DeliveryGuarantees.MailsWereClearedBeforeCommit | services/notification/internal/notification/service.go:32-46 | once an event has a row, only calls that had passed their existence check before the commit ever mail it |
| MailsPerProcess.MailedOncePerProcess | services/notification/internal/notification/service.go:32-46 | with any number of notifying processes, crashes and restarts, a process mails an event at most once, through redeliveries, requeues, fan-out, duplicate publishes, and inserts that took effect but reported an error, unless one of its own inserts about it was refused |
| MailsPerProcess.MailsWithinProcesses | services/notification/internal/notification/service.go:32-46 | so an event none of whose inserts was refused is mailed at most as often as there were notifying processes |
| MailsPerProcess.MailedAtMostOnce | services/notification/internal/notification/service.go:32-46 | and at most once if there was one, among any number of other consumers |
| MailSafety.FailedRowIsTrueIff | services/notification/internal/notification/service.go:79-94 | with one notifying process, dead or alive, among any others: a failed row means that no call ever mailed the event if and only if none of its inserts was refused |
| Journeys.MailedYetFailed | services/notification/internal/notification/service.go:61-74 | for every configuration, a run from the empty system in which one process uses up the retries, mails, has its insert refused, and records the event as failed |
| BusTermination.BenignRunsAreBounded | pkg/messaging/rabbitmq/topology.go:52-70 | with n queues copying every expiry to each other, a measure bounds the length of every run without requeues and new messages |
| BusTermination.OneEventIsBounded | pkg/messaging/rabbitmq/consumer.go:91-101 | one event on k of n queues settles within 12 k (n+1)^R steps, R the sum of the retry budgets |
| BusTermination.RequeuesBoundTheRun | pkg/messaging/rabbitmq/consumer.go:51-53 | the general bound: without new messages and consumers, every run, with whatever crashes and faults, is no longer than the work of its first state plus ten steps for each requeue |
| RetryBound.RetriesEnd | pkg/messaging/rabbitmq/consumer.go:98-101 | however parking fares and whatever else happens, a copy on the notification queue whose payload decodes, whose checks do not fault and whose failure gets on record, is requeued at most once and handled at most max(0, maxRetries) + 2 times, beyond the losses of its deliveries |
| RetryBound.RequeuesArePaid | pkg/messaging/rabbitmq/consumer.go:121-127 | of any copy on any queue, in any run: each requeue is a lost delivery or a failed parking, and its handler runs exceed max(0, maxRetries) + 1 by no more than these |
| RetryBound.BoundedIff | pkg/messaging/rabbitmq/consumer.go:51-53 | for every queue and event whose existence checks do not fault, whose failures get on record, and whose handler otherwise always fails: its handler runs have a bound, beyond losses and however parking fares, if and only if its handler makes an existence check |
| Journeys.ParkedInVainForEver | pkg/messaging/rabbitmq/consumer.go:121-127 | for every configuration and n, a run from the empty system in which nothing but the handler and publishing to the DLQ fails, and a message whose handler makes no existence check - another service's, or a payload that does not decode - is handled n times and is back on its queue |
| PermanentFailure.SettledMeansGone | pkg/messaging/rabbitmq/consumer.go:51-53 | nothing is left behind: after any run, a served queue that can do nothing more has finished with every copy of which no acknowledgement is lost |
| PermanentFailure.RunStaysCalm | pkg/messaging/rabbitmq/consumer.go:83-95 | whatever crashes, closings and faults a run holds, no acknowledgement of a copy is lost unless its own ack or nack is |
| OneMessage.StepMoves | pkg/messaging/rabbitmq/consumer.go:73-133 | whatever step is taken by anyone, a copy moves by the effects of the call that holds it, each as the code has it, by those of the broker on it, and by a loss of its delivery; anything else can only give its event a row |
| PermanentFailure.AlwaysFailingEndsOnDlq | pkg/messaging/rabbitmq/consumer.go:47-53 | on every queue and among any other traffic: a copy never requeued whose handler always fails ends, when parking it works and no channel or process ends while holding it, parked once on the DLQ after exactly max(0, maxRetries) + 1 runs, less the cycles it inherited |
| PermanentFailure.DlqIffFirstParkingTookEffect | pkg/messaging/rabbitmq/consumer.go:98-101 | on every queue, among any faults and any other traffic: a copy not parked before whose checks do not fault, whose failure gets on record, and whose handler, if it makes no check, always fails, ends on the DLQ if and only if the first attempt to publish it there, by a call that held it, took effect or its handler makes no existence check; and for notifications its event has a row either way |
| Journeys.DlqCanMiss | pkg/messaging/rabbitmq/consumer.go:121-127 | for every configuration, a run from the empty system in which only mails and one publish to the DLQ fail, and the message ends acknowledged with its failure on record and an empty DLQ |
| Text.AtoiOfItoa | services/auth/internal/auth/repository.go:24-41 | every 64-bit user id reads back from the decimal text it is stored as |
| Text.SplitOfJoin | pkg/query/query.go:61 | splitting undoes joining of parts free of the separator |
| Text.TrimSpace | pkg/query/query.go:62 | the result is a contiguous part of the text, all that was cut off is white space, and none is left at its ends |
| Text.TrimUndoesPadding | pkg/query/query.go:62 | white space put around a text, whatever it is, is trimmed off again |
| Tokens.NeverStoredWithDescendant | services/auth/internal/auth/service.go:84-95 | over all interleavings, faults and expiries, a token is never stored together with one descended from it |
| Tokens.RedeemersReadBeforeFirstDelete | services/auth/internal/auth/service.go:84-92 | every call that redeemed a token had read it before its first deletion |
| Tokens.OnlyItsOwnLeaves | services/auth/internal/auth/repository.go:43-45 | any stored token may expire; every step leaves every stored token stored, with its text, unless it is that token's own expiry or a DEL, for a call that presents it, that took effect |
| Tokens.OnlySavingStores | services/auth/internal/auth/repository.go:24-26 | the only step that stores anything is a SET that took effect, and it stores the token its call drew, as text that reads back as the call's user |
| Tokens.StoredUnlessDropped | services/auth/internal/auth/service.go:84-99 | over any run a stored token is still stored, for the same user, if and only if no step of the run dropped that token: nobody else's login, refresh or logout ends a session |
| Tokens.OverlappingReadersBothRedeem | services/auth/internal/auth/service.go:84-92 | any two calls that have both read a token can both redeem it, and leave two live successors |
| Tokens.OneTokenRedeemedTwice | services/auth/internal/auth/service.go:84-95 | a run from the empty store in which that happens |
| Tokens.StoredTokensBelongToTheirLogin | services/auth/internal/auth/repository.go:24-41 | every stored token reads back as the user of the login that began its chain |
| Tokens.PairsAgree | services/auth/internal/auth/service.go:101-118 | the access token of a pair is for the user its refresh token stands for |
| Tokens.OneLiveTokenPerLogin | services/auth/internal/auth/service.go:84-95 | if refreshes of the same token do not overlap for the tokens of one login's chain, at most one token of that chain is stored |
| Tokens.RedeemedAtMostOnce | services/auth/internal/auth/service.go:84-95 | a token of which no two refreshes overlap is redeemed at most once, whatever happens to other tokens |
| Tokens.BothCanRedeemIff | services/auth/internal/auth/service.go:84-95 | some continuation lets two refreshes both redeem one token if and only if each has redeemed it, or is past reading and before deleting it, or is about to read it while it is stored |
| Tokens.StepKeeps | services/auth/internal/auth/service.go:71-118 | every store operation, with any fault, keeps the token invariant |
| AuthService.Service.UserID | services/auth/internal/auth/repository.go:28-41 | Internal exactly on a Redis error, Unauthorized exactly for a missing token, otherwise the user the token was issued to; the store is left alone |
| AuthService.Service.Remove | services/auth/internal/auth/repository.go:43-45 | unless Redis refused, the token is gone; every other token is stored exactly as before |
| AuthService.Service.Store | services/auth/internal/auth/repository.go:24-26 | unless Redis refused, the new token is stored with its user id as text; every other token is stored exactly as before |
| AuthService.Service.IssueTokenPair | services/auth/internal/auth/service.go:101-118 | signs, draws and saves as a run of the machine; any failure is Internal; undisturbed, exactly sign then save, and a pair, whose new token is all that is added to the store |
| AuthService.Service.Login | services/auth/internal/auth/service.go:71-82 | an unknown user or wrong password changes nothing; otherwise the answer is that of a login call of the machine for that user, Internal or a pair; undisturbed, exactly sign then save, and the store is what it was and a new token for that user |
| AuthService.Service.Refresh | services/auth/internal/auth/service.go:84-95 | the answer is that of a refresh call of the machine; a pair only for a token that is then gone, with a child of it and the same user; a token deleted before, or no token, never yields one; undisturbed, exactly read, delete, sign, save: a stored token gives way to a new one that takes over its text, any other is Unauthorized, and the rest of the store stays |
| AuthService.Service.Redeem | services/auth/internal/auth/service.go:84-95 | the same for a string that is a token |
| AuthService.Service.Rotate | services/auth/internal/auth/service.go:90-94 | deletes before it issues; a delete that reports an error issues nothing; undisturbed, the store is what it was with the one token replaced |
| AuthService.Service.Logout | services/auth/internal/auth/service.go:97-99 | without an error the token is gone for good; undisturbed, exactly one delete, and every other token is stored exactly as before |
| RateLimit.Redis.IncrScript | pkg/middleware/ratelimit.go:19-25 | the INCR and EXPIRE sequence computes the counter and keys that the guarantees are about |
| RateLimit.Limiter.Serve | pkg/middleware/ratelimit.go:34-68 | the verdict and the new keys of one request, counted under the address the client gives; no-op without Redis, open on errors, Retry-After exactly the window's seconds |
| RateLimit.WindowSec | pkg/middleware/ratelimit.go:37 | the window in whole seconds, rounded toward zero, of its nanoseconds |
| RateLimit.ClientIP | pkg/middleware/ratelimit.go:73-86 | the X-Real-IP without outer space, whatever the other headers; without one, what comes before the first comma of X-Forwarded-For, likewise; without both, the host, or the whole remote address if that has no host |
| RateLimit.OneAddress | pkg/middleware/ratelimit.go:73-86 | these rules give a request one address only |
| RateLimit.RealIPDecides | pkg/middleware/ratelimit.go:75-77 | an address in X-Real-IP, in any white space, is the one counted, whatever else the request holds |
| RateLimit.FirstForwardedDecides | pkg/middleware/ratelimit.go:78-80 | without X-Real-IP, the first of any list in X-Forwarded-For is |
| RateLimit.ClientsAreIndependent | pkg/middleware/ratelimit.go:41 | over any sequence of requests, those that give one address get the verdicts they would get alone, and there is one for each |
| RateLimit.CounterTellsItsWindow | pkg/middleware/ratelimit.go:17-25 | a stored counter is the number of requests since its window opened, and its deadline one window length after the opening, set once |
| RateLimit.AdmittedWithinBudget | pkg/middleware/ratelimit.go:56-68 | a counted request passes if and only if it is among the first `requests` of its window; if not, it is told to wait for exactly the window's seconds |
| RateLimit.PerWindow | pkg/middleware/ratelimit.go:27-31 | at most `requests` pass in each window, beyond those that met a Redis error |
| RateLimit.AnyInterval | pkg/middleware/ratelimit.go:37-68 | at most 2 * requests - 1 pass in any half-open interval of one window length, from any state of the keys |
| RateLimit.BoundIsReached | pkg/middleware/ratelimit.go:37-68 | for every limit and window there is a request sequence that reaches it |
| RateLimit.LimitedIffWholeSecond | pkg/middleware/ratelimit.go:37 | simultaneous requests are limited if and only if the window is at least one second, or no request is to pass |
| RateLimit.RetryAfterIsEnough | pkg/middleware/ratelimit.go:56-66 | however many denied requests follow a 429, a request Retry-After seconds later passes |
| RateLimit.KeysAreIndependent | pkg/middleware/ratelimit.go:28-29 | each key's requests fare as if no others existed |
| RateLimit.NamespacesShareIff | pkg/middleware/ratelimit.go:41 | two namespaces share a counter for some addresses if and only if one, with its colon, begins the other |
| RateLimit.PlainNamespacesAreScoped | pkg/middleware/ratelimit.go:28-41 | without colons in the namespaces, one key means one service and one address |
| Users.EmailsStayUnique | services/user/internal/user/service.go:49-90 | sanity check of the statements as modelled: over all interleavings no two rows share an email |
| Users.LoserPublishesNothing | services/user/internal/user/service.go:30-38 | a call answered with a conflict has inserted nothing and published nothing |
| Users.ConflictIsReal | services/user/internal/user/repository.go:56-78 | the step that answers a conflict changes nothing, and some row has the wanted email at that moment |
| Users.InternalIffFault | services/user/internal/user/repository.go:45-97 | a statement is answered with Internal if and only if it reports an error; a query, and a statement that had no effect, leave table and events alone |
| Users.NotFoundIffGone | services/user/internal/user/repository.go:45-89 | NotFound is answered if and only if an update or deletion that reports no error finds no row of that id |
| Users.OneEventPerInsert | services/user/internal/user/service.go:21-29 | each inserted row yields at most one event, under its own id, by the call that inserted it and with that row's data |
| Users.CreatedIsAnnouncedIff | services/user/internal/user/service.go:30-39 | over any run, a call answered with a created user has exactly one event on the broker, with that user's id, name and email, if and only if no publish of its own was refused; if one was, it has none |
| Users.OneWinnerPerEmail | services/user/internal/user/repository.go:56-64 | of any number of racing registrations of one email at most one inserts, while nobody updates or deletes |
| Users.PasswordsSurviveUpdates | services/user/internal/user/service.go:70-88 | writing back a password read earlier never changes it |
| Users.UpdateAnswersTheRowIff | services/user/internal/user/repository.go:66-78 | an update's answer is the stored row if and only if it asks for no empty field that the row does not have |
| Users.ValidUpdateAnswersTheRow | services/user/internal/user/dto.go:8-13 | no such field passes the request validation, so an update is answered with the row as stored, with the name and email asked for |
| Users.StepKeeps | services/user/internal/user/service.go:30-94 | every statement and publish, with any fault, keeps the user invariant |
| UserService.Service.CreateRow | services/user/internal/user/repository.go:56-64 | Conflict exactly for a taken email, Internal exactly on an error, otherwise the new row under the next id; nothing is added if the statement was refused or the email taken |
| UserService.Service.UpdateRow | services/user/internal/user/repository.go:66-78 | NotFound, Conflict and Internal each in their case; the table is unchanged by the first two and by a refused statement, and otherwise has the patched row, even if the commit reports an error |
| UserService.Service.DeleteRow | services/user/internal/user/repository.go:80-89 | removes that row and no other, or reports that it was not there |
| UserService.Service.CreateAndPublish | services/user/internal/user/service.go:30-39 | insert, then publish, whose failure does not fail the call; undisturbed, exactly insert, then publish unless the email was taken: a free email gets a row under the next id and one event, with that id, name and email, at the end of what was published; a taken one Conflict, and table and events stay |
| UserService.Service.Create | services/user/internal/user/service.go:49-59 | a run of the machine; a created user is the row this call inserted, any other answer published nothing; undisturbed, exactly check, then insert and publish unless the email was taken: a free email gets its row and its event, a taken one Conflict and neither |
| UserService.Service.CreateWithPassword | services/user/internal/user/service.go:64-66 | the same without a check, with the given password |
| UserService.Service.UpdateTx | services/user/internal/user/service.go:70-88 | load, check a changed email, write, as a run of the machine; undisturbed, the statements are fixed exactly by the row and the email, and so are answer and table |
| UserService.Service.Update | services/user/internal/user/service.go:68-90 | answers with the requested name and email, or fails; publishes nothing; undisturbed, NotFound without the row, Conflict for a changed email that is taken, otherwise the row gets the name and email, an empty one leaving what was there, and keeps its password |
| UserService.Service.Delete | services/user/internal/user/service.go:92-94 | once it answers that the row was removed, the row is gone; publishes nothing; undisturbed, exactly one delete, answered by whether the row was there, and every other row stays |
| EndToEnd.BusPart | services/user/internal/platform/messaging/publisher.go:33-43 | the bus's share of every joint run is a run of the delivery protocol |
| EndToEnd.UserPart | services/user/internal/user/service.go:30-39 | the user service's share is a run of the user machine |
| EndToEnd.EveryRowTracesToAnInsert | services/user/internal/platform/messaging/publisher.go:33-43 | every notification row is about an inserted user whose event was published under that id, to the address inserted |
| EndToEnd.OneRowPerUser | services/notification/internal/notification/service.go:32-37 | every notification row belongs to one inserted user, no two rows to the same one, and there are at most as many rows as users ever inserted |
| EndToEnd.EveryEventIsAccountedFor | pkg/messaging/rabbitmq/publisher.go:36-68 | every published event is, on each bound queue, live, parked, or handled - and then notified to the user's address |
| EndToEnd.EveryRegistrationIsAccountedFor | services/user/internal/user/service.go:30-39 | over any joint run, a call answered with a created user whose publish was not refused has its event, with that user's id, name and address, live, parked or handled on each bound queue - handled by the notification service means a row with that address |
| EndToEnd.RegistrationReachesEveryQueue | services/user/internal/platform/messaging/publisher.go:33-43 | in every state, registering a free email undisturbed is answered with the new user and puts a ready copy of its user.created event, with id, name and address, on each bound queue, in all as many copies as queues |
| Pagination.NewParams | pkg/pagination/pagination.go:21-32 | results are in range; each of page and limit, if in range, is kept, whatever the other; a page below 1 becomes 1, a limit below 1 becomes 10 and one above 100 becomes 100 |
| Pagination.OffsetExactIff | pkg/pagination/pagination.go:34-36 | the offset is (page-1)*limit if and only if that fits in 64 bits |
| Pagination.TotalPagesExactIff | pkg/pagination/pagination.go:38-49 | page, limit and total are reported as they are; total_pages is the ceiling of total/limit if and only if total+limit-1 fits in 64 bits |
| Pagination.PageExactIff | pkg/pagination/pagination.go:34-36 | every table's page is the promised slice if and only if the true offset fits in 64 bits |
| Pagination.PagesTile | pkg/pagination/pagination.go:38-49 | pages 1 to total_pages concatenate to the listing, and total is its length |
| Pagination.BeyondIsEmpty | services/user/internal/user/repository.go:37-41 | every later page is empty, as long as its offset does not wrap |
| Query.ParseSorts | pkg/query/query.go:61-74 | the loop computes the sorts the round trip is about |
| Query.ParseFilters | pkg/query/query.go:76-92 | for every iteration order, the filters are exactly those of the allowed, non-empty filter keys |
| Query.Parse | pkg/query/query.go:58-95 | both of these |
| Query.ParseUndoesRender | pkg/query/query.go:52-74 | printing any list of directives, with white space around and over any fields, and parsing it returns the columns, directions and order of those over sortable fields |
| Query.EveryValueIsWritten | pkg/query/query.go:61-70 | every ?sort= value is some such list printed, so that fixes the result of parsing for all of them |
| Query.SortsAreAllowed | pkg/query/query.go:47-50 | whatever is requested, only columns of sortable schema fields get through |
| Query.FilterKeyIff | pkg/query/query.go:14-15 | a key names the filter of a field if and only if it is `filter[field]` and the field one or more word characters |
| Query.FiltersAreThoseAskedFor | pkg/query/query.go:76-92 | the filters are exactly those of parameters filter[field]=v with a filterable field of the schema and a first value v that is not empty, each with the field's column and kind |
| Query.FilterOrderIsIrrelevant | pkg/query/query.go:76-92 | every order of the map yields the same set of filters |
| Listing.Filters | pkg/query/gorm/gorm.go:16-27 | the statement selects exactly the rows that also pass every filter |
| Listing.Sorts | pkg/query/gorm/gorm.go:31-42 | the ORDER BY columns are appended in priority order |
| Listing.GetAll | services/user/internal/user/repository.go:29-43 | total counts the matching rows, and the page is cut from an ordering of exactly those rows, each as often as it is in the table, in which every two rows are in the order of the sorts |
| Listing.BeforeIffInOrder | pkg/query/gorm/gorm.go:31-42 | comparing column by column until one decides is: on every sort column whose predecessors rank two rows alike they rank as its direction says |
| Listing.AnswerIsOrdered | pkg/query/gorm/gorm.go:31-42 | of two rows of a listing the earlier has, on every sort column whose predecessors rank them alike, the value that ranks no higher if it is ascending, and no lower if descending |
| Listing.RowsAreAsAskedFor | pkg/query/gorm/gorm.go:16-27 | the rows listed are those with what every filter[field]=v asks for: the text v itself, or ILIKE `%v%` for a partial field |
| Listing.IterationOrderIsIrrelevant | pkg/query/query.go:76-92 | the rows selected do not depend on the iteration order |
| Listing.OneOrder | pkg/query/gorm/gorm.go:31-42 | sorts that distinguish the matching rows leave one possible order |
| Listing.PagesTileTheListing | services/user/internal/user/repository.go:29-43 | then the pages, each from a query of its own, concatenate to the ordered listing |
| Listing.PagingIsCompleteIff | services/user/internal/user/repository.go:37-41 | fetching all pages shows each matching row exactly once at every page size if and only if the sorts distinguish the matching rows |

## Left out

- Prefetch: the broker may hand out any number of deliveries, a superset of what the limit of ten allows.
- The error text of failed notification rows, trace ids, timestamps and versions of envelopes.
- Recipients recovered from payloads that decode only in part; such a failed row has an empty recipient here.
- The retry TTL's real time, shutdown timing and reconnection; a lost connection is a closed channel.
- Rejections by the broker for reasons other than those of Topology.Declare, such as permissions or name lengths.
- Rendering and SMTP: a Send is one step that succeeds or fails.
- JWT signing, password hashing and UUID generation; a Login call gets the looked-up user and whether the password matched.
- HTTP and gRPC handlers, request decoding and validation, error codes and their mapping, logging, configuration, health checks.
- Registration through the auth service's gRPC client, whose effect is a CreateWithPassword call here.
- Rounding of a window's fractional seconds in floating point, and Redis counters beyond 64 bits.
- The parsing of remote addresses into host and port, which is a parameter.
- Case folding and wildcards inside ILIKE patterns: the operator is a parameter.
- Conversion of filter values to column types, and NULLs; columns are text here.
- AuthService.Service.Logout: says nothing about a delete that reports an error, which may or may not have taken effect.
- Listing.GetAll: both statements see the same table, as if nothing were written between the count and the fetch.
