# FinFlow, verified

A Dafny model of FinFlow's payment-to-ledger pipeline, and proofs of what it keeps through crashes,
duplicates, retries and races.

## What is modelled

`System.dfy` is one labelled transition system: API clients, outbox publishers, one ledger consumer per topic
partition, replay operators, the retention command, a clock, and other producers. A SQL transaction or a
broker request is one atomic step. Every external call ends in one of three ways: it took effect, it failed,
or it took effect although its caller saw an error. A write call may append any number of copies. A crash
throws away the local state of its actor between any two steps. A run is any sequence of labels, in any order
and for any number of actors; labels that are not enabled are skipped. Other producers may write anything to
the topic that the ledger takes for no movement: poison, requests it rejects, and event types it does not
know, under any event id, even that of a payment's own event. `Reached(cfg, partitions, schedule)` is the
state after a run, so a lemma over all schedules speaks of every reachable state.

The state holds the tables (payments with their unique key index, outbox rows, accounts, entries, consumed
events, replay audit), the partition logs with committed offsets, the dead-letter log, and the local state of
each actor. Fields commented as history remember what happened (events ever inserted, write calls, postings,
acknowledged replays, replies); no guard of a step reads them, except to keep generated identifiers fresh.

On top of it:

- `OutboxProtocol`, `History`, `Delivery`, `ExactlyOnce`, `Conservation`, `Reconciliation`, `PublishEvidence`,
  `ApiRaces` and `ReplayAudit` each prove an invariant of every step and the theorems that follow for every run.
  `Stuck`, `Passing` and `Deliverable` build continuations of a run, and say exactly what can still be published,
  replayed and delivered from where. `Counterexamples` gives schedules that reach what does not hold.
- `Observed` restates what the runs leave behind row by row, and `Wire` what messages and records mean header by
  header, by the names on the wire; `Atomicity` says what errors and crashes can hide.
- `World` is the running system as a mutable object whose state is always the one its trace reaches.
  `OutboxPublisherProgram`, `ConsumerProgram`, `ReplayerProgram`, `PaymentServiceProgram` and `Retention` are
  the Go programs written against it: each call is preceded by any number of steps of the other actors, and is
  itself one step of the transition system. Their contracts say which steps a program takes and what its
  caller may conclude. So the programs only ever take steps that the theorems cover.
- `Ledger`, `TrialBalance`, `RetryLoop`, `RateLimiter`, `PaymentRules`, `DeadLetter`, `Messages` and `Common`
  hold the arithmetic, the pure rules and the message formats.

### Where the code differs from what one may expect

- A caller that loses the race of two status updates is told that the payment was not found
  (`ApiRaces.LosingSwapReportsNotFound` says exactly when, `Counterexamples.LostUpdateReachable` how).
- The doubling of the retry backoff wraps around: the expected waits hold at every attempt exactly when the
  maximum backoff is at most 2^62 - 1, which the configuration check does not require
  (`RetryLoop.ClosedFormExactly`).
- The ledger's balance check is exact modulo 2^64; two entries are always judged exactly, three are not
  (`Ledger.TwoEntriesExact`, `Ledger.ThreeEntriesWrap`).
- A request shares its hash preimage with another one exactly when a NUL character stands in one of its fields
  (`PaymentRules.HashDecidesExactly`); a text column cannot hold one, which is what makes the stored side decisive
  (`PaymentRules.HashDecides`).
- An outbox row left in `publishing` without an owner is never claimed again; an unpublished row can still be
  published exactly when it is not one of these (`Stuck.CanPublishExactly`), and three failures make it one
  (`Stuck.StrandsExactly`). A replay left `started` without a claimant is stuck in the same way
  (`Stuck.CanFinishExactly`). So no event is lost, but these two can keep a payment from the ledger for good
  (`Counterexamples.StrandedReachable`, `Counterexamples.DeadLetterStuckReachable`), and nothing else can
  (`Deliverable.OnlyStuckRowsStop`).
- A payment gets a second pair of entries exactly when a ledger transaction of its event takes effect after
  retention removed the event's dedup row (`ExactlyOnce.MorePairsExactly`), which can happen in every
  configuration (`Counterexamples.TwoPairsReachable`), and exactly then cash exceeds the payments that were
  recorded (`Reconciliation.CashExactly`). The deployment guide's rule that the retention exceeds every
  redelivery window is the hypothesis of `ExactlyOnce.TimedExactlyOnce`.

## Model

| member | source | states |
|---|---|---|
| Delivery.NoLoss | services/ledger-service/internal/consumer/payment_consumer.go:95-133 | for every run and every payment: its created event is in an unpublished outbox row, in an unchanged copy at an uncommitted offset, in a dead letter that preserves it, or in the ledger as a debit and a credit of the payment's amount and currency |
| Deliverable.CanReachLedgerExactly | services/ledger-service/internal/consumer/payment_consumer.go:95-133 | from every reachable state, some continuation of the run brings a payment's debit and credit into the ledger exactly when they are there, or an unchanged copy of its event is at an uncommitted offset, or its event is still to be written (unclaimed, or owned and not yet written with success), or a dead letter preserves it and its audit row is not `started` without a claimant |
| Deliverable.OnlyStuckRowsStop | services/payment-service/internal/publisher/outbox_publisher.go:103-124 | from every reachable state every payment can still reach the ledger, unless its outbox row is `publishing` without an owner or its dead letter's audit row is `started` without a claimant |
| Deliverable.BeyondForever | services/ledger-service/internal/repository/replay_repository.go:32-59 | whatever happens, a payment that is out of reach stays out of reach: no step of any actor brings it back |
| Passing.PassMessage | services/ledger-service/internal/consumer/payment_consumer.go:95-133 | in any state some steps of the consumer pass the message at its offset, whatever it is, and post it once if it carries a movement and has no dedup row |
| Stuck.StrandedForever | services/payment-service/internal/repository/outbox_repository.go:22-36 | a row that is `publishing` and in no publisher's queue is never changed again, over any continuation |
| Stuck.StrandsExactly | services/payment-service/internal/publisher/outbox_publisher.go:103-124 | a step brings a row there exactly when it is a claim that takes effect but reports an error, a mark that does not take effect, or a crash of the owner |
| Stuck.CanPublishExactly | services/payment-service/internal/repository/outbox_repository.go:17-81 | from every reachable state an unpublished row can still become published, by some continuation, exactly when it is not there |
| Counterexamples.StrandedReachable | services/payment-service/internal/repository/outbox_repository.go:17-81 | in every configuration a schedule ends with such a row, whose payment no continuation brings into the ledger |
| Stuck.CanFinishExactly | services/ledger-service/internal/repository/replay_repository.go:32-59 | from every reachable state a `started` replay can still end, by some continuation, exactly when an operator holds its claim |
| Stuck.UnclaimedForever | services/ledger-service/internal/repository/replay_repository.go:32-59 | a `started` audit row without a claimant is never changed or claimed again, over any continuation |
| Counterexamples.DeadLetterStuckReachable | services/ledger-service/internal/repository/replay_repository.go:32-59 | in every configuration a schedule ends with a payment whose event is in a dead letter, whose replay is stuck so, and which no continuation brings into the ledger |
| Delivery.ReachedInv | services/payment-service/internal/publisher/outbox_publisher.go:103-160 | in every reachable state: whatever is on the topic or in a dead letter is a copy of an event the API inserted or carries no movement, every posting is that of an inserted created event, every passed message is done with, and no created event is lost |
| Delivery.StepFlow | services/ledger-service/internal/consumer/payment_consumer.go:95-133 | every step of every actor, retention and other producers included, keeps those invariants |
| Delivery.StaysUnpublished | services/payment-service/internal/publisher/outbox_publisher.go:110-121 | a row stops being unpublished only when its owner marks it after an acknowledged write |
| Delivery.ConsumerSettles | services/ledger-service/internal/consumer/payment_consumer.go:107-131 | a consumer is ready to commit an offset only when the held message, whoever wrote it, is ignored by the ledger, posted, or recorded with its partition and offset in a dead letter |
| Observed.NothingSkipped | services/ledger-service/internal/consumer/payment_consumer.go:95-133 | over every run: a message below a committed offset, whoever wrote it, has an event id and is no created event, or the debit and the credit it orders are in the ledger, or a dead letter keeps it whole, with its partition and offset |
| Observed.BadMessagesKept | services/ledger-service/internal/consumer/payment_consumer.go:181-204 | over every run: a passed message whose headers give no event id, a created event whose body is no JSON, and one whose id, payment, amount or currency the ledger rejects are in a dead letter, with their place |
| Observed.EntriesApart | services/ledger-service/internal/service/ledger_service.go:86-123 | over every run: no two entries have the same id, and two entries have the same transaction exactly when they are the two rows of one movement |
| Observed.RowsArePayments | services/ledger-service/internal/service/ledger_service.go:86-123 | over every run: each pair of rows debits `finflow_cash` and credits `merchant_payable`, in its currency, by the amount of a payment it references |
| Observed.OneCreatedEvent | services/payment-service/internal/repository/payment_repository.go:157-203 | over every run: a payment has exactly one `payment.created` event, with its id, amount and currency |
| Observed.CallsPerClaim | services/payment-service/internal/repository/outbox_repository.go:22-36 | over every run: the attempts of an outbox row are the claims of it that took effect, whatever their callers were told; its writes are at most as many, and its marks at most as many as its writes |
| Observed.OneRepublication | services/ledger-service/internal/repository/replay_repository.go:32-59 | over every run: among its steps there is at most one acknowledged republication of an event, unless retention removed its audit row |
| Atomicity.AllOrNothing | services/ledger-service/internal/repository/postgres_ledger_repository.go:66-103 | in any state, a transaction or commit that reports an error leaves the tables, topics and offsets exactly as an acknowledged one does, or exactly as they were |
| Atomicity.ErrorsTellNoSuccess | services/payment-service/internal/repository/payment_repository.go:34-108 | a client whose call reports an error is given no answer, or one that refuses its request |
| Atomicity.CrashForgetsOnly | services/ledger-service/internal/consumer/payment_consumer.go:95-133 | a crash of any actor can come between any two of its calls, and forgets where it was and nothing else |
| Wire.ReadsAs | services/ledger-service/internal/consumer/payment_consumer.go:181-204 | in terms of headers and body: a permanent error exactly for a missing or empty first `event_id`, or a `payment.created` event whose body is no JSON; ignored exactly for other events with an id |
| Wire.AsksFor | services/ledger-service/internal/service/ledger_service.go:40-61 | in terms of headers and body: the ledger accepts a movement exactly for a `payment.created` event with a UUID as its id, a payment id, a positive amount and a currency of three letters, texts trimmed and the currency in upper case |
| Delivery.HeldMovementOk | services/ledger-service/internal/consumer/payment_consumer.go:162-221 | whoever wrote the held message, what the consumer would hand to the ledger is a created event the API inserted, under its own id, payment, amount and currency; and every copy of a created event is handed over so |
| Delivery.PostingIsMovement | services/ledger-service/internal/service/ledger_service.go:76-123 | a posting for a payment's created event is a debit and a credit of that payment's amount and currency under one transaction |
| History.ReadGenuine | services/ledger-service/internal/consumer/payment_consumer.go:162-221 | the ledger accepts every genuine created event, under its own id and amount; every status event is ignored |
| History.StepHistory | services/payment-service/internal/repository/payment_repository.go:157-235 | every payment has one created event, in the same transaction, with its amount and currency, and no event exists without its payment |
| History.WrittenIsGenuine | services/payment-service/internal/publisher/outbox_publisher.go:126-160 | the written message carries the event's id, type, aggregate key and payload, whatever headers the tracer injects |
| ExactlyOnce.ExactlyOnceEffect | services/ledger-service/internal/repository/postgres_ledger_repository.go:66-103 | for every run: a payment whose dedup row was never removed has no entries, or exactly one debit and one credit of its amount sharing one transaction id |
| ExactlyOnce.TimedExactlyOnce | services/payment-service/internal/retention/retention.go:46-57 | the same for every payment with retention running, when each ledger transaction for an event comes no later than the consumed-event retention after its `consumed_at` |
| ExactlyOnce.SecondPairExactly | services/ledger-service/internal/repository/postgres_ledger_repository.go:73-102 | in any state, however often anything was posted before, a step posts an event once more exactly when it is a ledger transaction for it that takes effect while its dedup row is not there |
| ExactlyOnce.PairsPosted | services/ledger-service/internal/repository/postgres_ledger_repository.go:73-102 | a payment's entries are one pair, the debit and the credit of its amount under one transaction, for each time its event was posted |
| ExactlyOnce.MorePairsExactly | services/ledger-service/internal/repository/postgres_ledger_repository.go:73-102 | over any run, a payment ends with more than one pair exactly when some ledger transaction of its event took effect after retention removed the event's dedup row and while it had no new one |
| Counterexamples.TwoPairsReachable | services/payment-service/internal/retention/retention.go:46-57 | in every configuration a schedule ends with four entries for one payment: a second copy of its event is consumed after retention removed the dedup row |
| ExactlyOnce.ReachedOnceUnlessPurged | services/ledger-service/internal/repository/postgres_ledger_repository.go:73-102 | the posted events are exactly those that have a dedup row or whose row retention removed, and an event is posted twice only if its row was removed |
| ExactlyOnce.EntriesOfPayment | services/ledger-service/internal/repository/postgres_ledger_repository.go:149-186 | the entries selected for a payment are those of the postings for it, in table order |
| Reconciliation.ConservationAtQuiescence | services/ledger-service/internal/repository/postgres_ledger_repository.go:105-119 | in a run where no dedup row was removed or every delivery was timely: when created events are published or removed, offsets are committed and the dead-letter log is empty, the cash balance of each currency equals the sum of all payment amounts in it |
| Reconciliation.CashIsPaidPayments | services/ledger-service/internal/repository/postgres_ledger_repository.go:105-119 | in every reachable state of a run where no dedup row was removed or every delivery was timely, it equals the sum over the payments that have entries |
| Reconciliation.CashExactly | services/ledger-service/internal/repository/postgres_ledger_repository.go:105-119 | in every reachable state, with no condition on the run, the cash balance is at least the sum over the payments that have entries, and equal to it exactly when no payment of the currency was posted again |
| Reconciliation.ConservationExactly | services/ledger-service/internal/repository/postgres_ledger_repository.go:105-119 | in every reachable quiescent state the cash balance of a currency equals the sum of all its payment amounts exactly when no payment of the currency was posted again |
| Reconciliation.PostedIsPaid | services/payment-service/internal/repository/payment_repository.go:157-203 | the postings' total is the sum over the payments, each counted as often as it was posted |
| Conservation.ReachedTrialBalance | services/ledger-service/internal/service/ledger_service.go:76-123 | in every reachable state, accounts without entries included, debit-normal and credit-normal balances have equal sums in every currency |
| Conservation.ReachedChart | services/ledger-service/internal/repository/postgres_ledger_repository.go:21-41 | one account per name and currency; each posting uses the cash and payable accounts of its own currency |
| Conservation.EnsureGives | services/ledger-service/internal/repository/postgres_ledger_repository.go:21-41 | `EnsureAccount` returns the row of the name and currency with its normal side, existing or new, and keeps the chart unique |
| TrialBalance.ListBalances | services/ledger-service/internal/repository/postgres_ledger_repository.go:105-147 | one balance per account, signed by its normal side; an error exactly when some sum is no int64 |
| TrialBalance.TrialBalances | services/ledger-service/internal/repository/postgres_ledger_repository.go:106-119 | if every transaction balances per currency and entries are in their account's currency, both sides have equal sums |
| TrialBalance.SidesDifferByNet | services/ledger-service/internal/repository/postgres_ledger_repository.go:106-119 | in general the two sides differ by debits minus credits over all entries |
| OutboxProtocol.OneOwner | services/payment-service/internal/repository/outbox_repository.go:22-36 | in every run an event is held by at most one live publisher, at one place of its queue, and its row is `publishing` |
| OutboxProtocol.WritesWithinAttempts | services/payment-service/internal/publisher/outbox_publisher.go:110-121 | mark calls are at most write calls, and write calls at most the row's `attempts` |
| OutboxProtocol.PublishedIsTerminal | services/payment-service/internal/repository/outbox_repository.go:83-110 | once published a row never changes again, although the marks carry no status guard, until retention removes it |
| OutboxProtocol.PublishedStep | services/payment-service/internal/repository/outbox_repository.go:83-110 | one step changes a published row only by removing it, when it is older than the outbox retention |
| OutboxProtocol.ReachedOwned | services/payment-service/internal/repository/outbox_repository.go:17-81 | claimed sets are disjoint and each claim's write and mark are unspent until used, in every reachable state |
| PublishEvidence.PublishedIsOnTopic | services/payment-service/internal/publisher/outbox_publisher.go:126-160 | an event whose row is published, or already removed, has a topic copy with exactly its key and payload, under its `event_id` and `event_type` and the aggregate type `payment` |
| OutboxPublisherProgram.PublishBatch | services/payment-service/internal/publisher/outbox_publisher.go:103-124 | the publisher's own steps are one claim, then per claimed event, in claim order, the write of that event and the mark of that event as published or failed, as its write was acknowledged or not; errors do not stop it, and it ends holding nothing; when nobody interferes with the claim, all claimable rows up to the limit are among them |
| OutboxPublisherProgram.PublishOne | services/payment-service/internal/publisher/outbox_publisher.go:126-160 | one write call; when it succeeds the topic holds a message with the event's aggregate key and payload, the headers `event_id`, `event_type` and `aggregate_type`, and the tracer's headers behind them |
| OutboxPublisherProgram.ClaimBatch | services/payment-service/internal/repository/outbox_repository.go:17-81 | one claim of at most the batch limit (25 by default), and of that many or all waiting and failed rows when nobody interferes, whose rows are `publishing` and returned with their own contents; a failed call leaves the publisher without events |
| OutboxPublisherProgram.MarkEvent | services/payment-service/internal/repository/outbox_repository.go:83-110 | when the call succeeds the row is `published` with its stamp, or `failed`, as the write ended; either way the publisher moves on to the rest |
| ConsumerProgram.RunOnce | services/ledger-service/internal/consumer/payment_consumer.go:95-133 | a turn does nothing only when there is no message; else its own steps are the fetch, the returned number of handler runs, and the closing that their end calls for: the commit after a success; a dead letter and, if it is acknowledged, the commit after a permanent or exhausted error; a crash after a context error or a cancelled wait. Poison ends the first attempt. The committed offset moves past exactly the fetched message, which is then ignored, posted, or in a dead letter with its place, and only a failed turn may leave it where it was |
| ConsumerProgram.HandleWithRetry | services/ledger-service/internal/consumer/payment_consumer.go:135-160 | the consumer's own steps are exactly the returned number of handler runs, and a crash if a wait was cancelled; poison ends the first attempt with a permanent error, an ignored message succeeds at once, and the ledger's failures, a rejected request included, use all attempts; the waits are the backoff sequence; the final return is unreachable |
| ConsumerProgram.HandleMessage | services/ledger-service/internal/consumer/payment_consumer.go:162-221 | its own steps are exactly one run of the handler, which calls no database unless the message orders a movement; permanent exactly when the headers give no event id, or the event is `payment.created` and its body is no JSON; an event of another type succeeds; success on a created event means that its id is consumed and the ordered debit and credit are in the ledger |
| ConsumerProgram.RecordPaymentMovementOnce | services/ledger-service/internal/service/ledger_service.go:40-61 | one run of the handler; a message that orders no movement, by a bad id, payment, amount or currency, ends the attempt with an error and without a database call; success means that the event is consumed and its debit and credit are in the ledger; any failed call ends the attempt |
| ConsumerProgram.PostMovement | services/ledger-service/internal/service/ledger_service.go:76-123 | the balance check never prevents the transaction, which is its one step; success means the event is consumed and the accepted movement is in the ledger as a debit and a credit on the currency's two accounts |
| ConsumerProgram.CreateTransactionOnce | services/ledger-service/internal/repository/postgres_ledger_repository.go:66-103 | whatever the call reports, the dedup row and the entries are committed together or neither is, and neither if the event was consumed before |
| ConsumerProgram.EnsureCashAccount | services/ledger-service/internal/repository/postgres_ledger_repository.go:21-41 | the attempt goes on with the id of the currency's cash account, or fails with the call |
| ConsumerProgram.CheckRequest | services/ledger-service/internal/service/ledger_service.go:153-165 | the request is accepted exactly when the event id is a UUID and payment id, amount and currency are valid, and then with its texts trimmed and the currency in upper case |
| ConsumerProgram.BuryMessage | services/ledger-service/internal/consumer/dead_letter.go:85-121 | success means the dead-letter log has a record with the message's topic, partition, offset, key, value and headers, its event id and type, the attempts, the time, and the cause cut to 2048 characters |
| ConsumerProgram.CommitOffset | services/ledger-service/internal/consumer/payment_consumer.go:125-131 | the offset moves past exactly the handled message; a failed call may or may not have moved it |
| RetryLoop.ClosedFormExactly | services/ledger-service/internal/config/config.go:106-114 | the wait after the k-th failure is min(max, initial * 2^(k-1)) for all k exactly when max <= 2^62 - 1 |
| RetryLoop.OverflowExample | services/ledger-service/internal/config/config.go:109-114 | an accepted configuration whose second wait is negative |
| RetryLoop.TotalWait | services/ledger-service/internal/consumer/payment_consumer.go:135-160 | the total wait is at most (attempts - 1) * max and at most the geometric sum |
| DeadLetter.CyclesRoundTrip | services/ledger-service/internal/replay/replayer.go:52-62 | any number of dead-letter and replay cycles keeps topic, key, value and headers, adds one pair of headers per cycle, and changes no lookup but those two keys |
| DeadLetter.CyclesReadAlike | services/ledger-service/internal/consumer/payment_consumer.go:162-221 | after any number of cycles the consumer takes the same branch with the same event id, type and payload |
| DeadLetter.BuildRecord | services/ledger-service/internal/consumer/dead_letter.go:85-121 | the record preserves key, value and headers and names the event; the envelope repeats id, type and source topic |
| DeadLetter.BuildReplay | services/ledger-service/internal/replay/replayer.go:52-62 | the republished message has the record's key and value, and its headers followed by the replay pair |
| DeadLetter.BoundedFailure | services/ledger-service/internal/consumer/dead_letter.go:125-132 | a prefix of the cause of at most 2048 characters, the whole cause if it fits |
| Messages.HeaderValue | services/ledger-service/internal/consumer/payment_consumer.go:232-240 | the value of the first header with the key, or the empty text |
| Messages.LookupIsFirst | services/ledger-service/internal/consumer/payment_consumer.go:232-240 | first match means the least index with the key |
| Messages.LookupAppend | services/ledger-service/internal/replay/replayer.go:52-62 | appended headers never shadow a key that is already there |
| ReplayAudit.OneClaimant | services/ledger-service/internal/repository/replay_repository.go:32-59 | in every run an event has at most one live claimant, whose row is present under its audit id with status `started` |
| ReplayAudit.FinishTouchesOneRow | services/ledger-service/internal/repository/replay_repository.go:61-78 | a claimant's finish changes exactly its own row, so its audit is never reported missing |
| ReplayAudit.OneAcknowledgedReplay | services/ledger-service/internal/replay/replayer.go:44-69 | unless retention removed its audit row, an event has at most one acknowledged republication over the whole run |
| ReplayAudit.AuditIdStable | services/ledger-service/internal/repository/replay_repository.go:32-59 | an event keeps its audit id while its row exists: a failed replay is claimed again under the same id |
| ReplayAudit.SucceededIsFinal | services/ledger-service/internal/repository/replay_repository.go:32-78 | over any run a succeeded replay's row never changes, and is never claimed again, until retention removes it |
| ReplayAudit.StepAudit | services/ledger-service/internal/repository/replay_repository.go:32-78 | every step of every actor keeps the exclusion |
| ReplayerProgram.Replay | services/ledger-service/internal/replay/replayer.go:30-70 | a record of another schema, without event id, of another topic, or without operator or reason causes no call; otherwise one claim, and if it is granted one republication and one finish with its result; a refused claim means that the audit row is started or succeeded; without an error the topic holds the record's key, value and headers with `replayed_at` and `replay_audit_id` behind them, and that audit row ends as succeeded, or as failed if the write failed |
| ReplayerProgram.ClaimAudit | services/ledger-service/internal/repository/replay_repository.go:32-59 | a granted claim leaves the row `started` with the operator's name and reason, and gives the operator its audit id; otherwise the operator holds nothing |
| ApiRaces.OnePaymentPerKey | services/payment-service/internal/repository/payment_repository.go:34-108 | for each non-empty key at most one payment and one created event ever exist |
| ApiRaces.OneCreator | services/payment-service/internal/repository/payment_repository.go:63-80 | at most one caller is told that it created the payment of a key |
| ApiRaces.ReplayFinds | services/payment-service/internal/repository/payment_repository.go:86-107 | a replaying caller always finds the row, and gets the id of the key's one payment with an equal hash |
| ApiRaces.ConflictExactly | services/payment-service/internal/repository/payment_repository.go:91-107 | unless the select fails, the answer is a conflict exactly when the stored request differs from the new one in some field, and otherwise the stored payment, or none if the commit reports an error |
| ApiRaces.StatusHistory | services/payment-service/internal/repository/payment_repository.go:124-155 | a pending payment has no status event, a terminal one exactly one, from pending to its status |
| ApiRaces.StatusStep | services/payment-service/internal/service/payment_service.go:170-173 | one step changes a status only from pending to a terminal one, and nothing else of the payment |
| ApiRaces.TerminalForever | services/payment-service/internal/service/payment_service.go:93-129 | over whole runs a terminal payment never changes, so it leaves pending at most once |
| ApiRaces.LosingSwapReportsNotFound | services/payment-service/internal/repository/payment_repository.go:124-155 | a compare-and-set answers that the payment was not found exactly when it takes effect on a payment that has left pending, that is, when the client lost the race; then it changes nothing else |
| Counterexamples.LostUpdateReachable | services/payment-service/internal/repository/payment_repository.go:124-155 | in every configuration a schedule ends with the answer that a payment was not found, although it is there and succeeded |
| Counterexamples.BadMessagesReachable | services/ledger-service/internal/consumer/payment_consumer.go:181-203 | in every configuration a consumer gets to handle a message without an event id, a created event whose body is no JSON, and one that the ledger rejects |
| PaymentServiceProgram.Create | services/payment-service/internal/service/payment_service.go:36-74 | field by field against the raw request: created means a new pending payment with its amount, upper-cased currency, trimmed texts, key and hash, and its event waiting in the outbox; replayed means the key's payment holds the same in every field; conflict means it does not; invalid exactly outside the documented limits, and then nothing is called; failed only when a call failed or a text holds a NUL |
| PaymentServiceProgram.StorePayment | services/payment-service/internal/repository/payment_repository.go:34-108 | one insert, and one select only when the key was taken; replay and conflict only for a non-empty key; each answer means what `Create` says |
| PaymentServiceProgram.Validate | services/payment-service/internal/service/payment_service.go:131-159 | true exactly for a positive amount, a three-letter upper-case currency and texts within their limits |
| PaymentServiceProgram.UpdateStatus | services/payment-service/internal/service/payment_service.go:93-129 | after the read alone: not found exactly when the payment is not there, unchanged exactly when it has the status, and an invalid transition exactly when it is terminal with another; after the swap: updated with its event in the outbox, or not found because the payment has left pending meanwhile; failed only when a call failed |
| PaymentRules.HashDecides | services/payment-service/internal/service/payment_service.go:175-185 | a stored request and any request have the same hash preimage exactly when they agree on all four fields |
| PaymentRules.HashDecidesExactly | services/payment-service/internal/service/payment_service.go:175-185 | a request shares its hash preimage with no other request exactly when none of its text fields holds a NUL |
| PaymentRules.JoinInjective | services/payment-service/internal/service/payment_service.go:175-185 | NUL-joined lists of NUL-free texts are equal only if the lists are |
| PaymentRules.FormatIntInjective | services/payment-service/internal/service/payment_service.go:176-182 | different integers have different decimal texts |
| PaymentRules.FormatIntIsDecimal | services/payment-service/internal/service/payment_service.go:176-182 | the amount in the preimage is its decimal text, without leading zeros |
| PaymentRules.NulNeeded | services/payment-service/internal/service/payment_service.go:175-185 | two different requests with NULs inside their fields share a preimage |
| Ledger.ValidateBalanced | services/ledger-service/internal/service/ledger_service.go:125-151 | accepts exactly lists of at least two entries with positive amounts, known directions and three-letter currencies whose debits minus credits vanish modulo 2^64 in each currency; a validation error exactly when some entry of at least two is bad |
| Ledger.AcceptedIsBalancedExactly | services/ledger-service/internal/service/ledger_service.go:125-151 | an accepted list is balanced exactly when no currency is out by 2^64 or more |
| Ledger.ExactWhenNetsFit | services/ledger-service/internal/service/ledger_service.go:125-151 | the check is true balance whenever every net is below 2^64 in size |
| Ledger.TwoEntriesExact | services/ledger-service/internal/service/ledger_service.go:125-151 | every two-entry list of int64 amounts is judged exactly |
| Ledger.ThreeEntriesWrap | services/ledger-service/internal/service/ledger_service.go:125-151 | three debits of 2^64 in total are accepted, so the bound is tight |
| Ledger.OrderIrrelevant | services/ledger-service/internal/service/ledger_service.go:125-151 | the verdict does not depend on the order of the entries |
| Ledger.MovementBalances | services/ledger-service/internal/service/ledger_service.go:76-123 | the two entries of a valid movement are balanced and accepted |
| RateLimiter.Limiter.Allow | services/gateway-service/internal/ratelimit/limiter.go:52-70 | the key's bucket counts the call, from one in a window that opens now if there is none or it is over; no other key changes, and the call is allowed exactly within the limit |
| RateLimiter.Limiter.AllowAll | services/gateway-service/internal/ratelimit/limiter.go:52-70 | the decisions over a whole trace are those of the trace semantics the theorems speak of |
| RateLimiter.SlidingWindowBound | services/gateway-service/internal/ratelimit/limiter.go:52-70 | on a nondecreasing clock a key gets at most (k + 1) * limit allowed calls in any half-open interval of k windows |
| RateLimiter.FirstCallsOfWindowAllowed | services/gateway-service/internal/ratelimit/limiter.go:60-69 | a call is allowed exactly when it is among the first `limit` calls since its key's window opened |
| RateLimiter.OpeningMeans | services/gateway-service/internal/ratelimit/limiter.go:60-66 | the calls of a window come less than its length after its opening, and a window opens at least that long after the one before |
| RateLimiter.CounterMeaning | services/gateway-service/internal/ratelimit/limiter.go:56-68 | the counter is the number of the key's calls since its window opened |
| RateLimiter.KeysAreIndependent | services/gateway-service/internal/ratelimit/limiter.go:56-68 | calls on other keys have no effect |
| Retention.RunRule | services/payment-service/internal/retention/retention.go:76-101 | on n rows that are published, consumed, or completed as succeeded or failed before the rule's own cutoff, alone with batch b: its own steps are n / b + 1 delete statements, Deleted = Eligible = n and no such row is left; under interference Deleted <= Eligible; always Deleted is the number of rows its statements removed, and they are batches of its own rule at one cutoff; a dry run takes no step; an error only for a bad configuration or a failed statement |
| Retention.DeleteBatches | services/payment-service/internal/retention/retention.go:91-100 | the loop ends under any interference, and has deleted at most what was eligible when it began |
| Retention.ChooseBatch | services/payment-service/internal/retention/retention.go:29-74 | the batch is eligible rows of the rule's table only, at most the batch size, all of them up to that size if none is locked |
| Retention.EligibleShrinks | services/payment-service/internal/retention/retention.go:83 | no step of any other actor makes a row eligible for a cutoff that has passed |
| Retention.RemovedOnlyAfterRetention | services/payment-service/internal/retention/retention.go:29-45 | over any run, an inserted event whose outbox row is gone was published, and longer ago than the retention, at some earlier point: unpublished rows are never removed |
| Retention.ReplayRemovedOnlyAfterRetention | services/payment-service/internal/retention/retention.go:58-72 | over any run, an audit row that was there and is gone was complete, and for longer than the retention, at some point in between: started replays are never removed |
| World.StepUndisturbed | services/payment-service/internal/repository/outbox_repository.go:22-36 | a step of another actor never changes an actor's own claims, held message, audit claim or pending request |
| World.World.Interfere | services/ledger-service/internal/consumer/payment_consumer.go:95-133 | any number of steps of the other actors leaves the actor's own steps and local state as they were |
| World.World.Act | services/ledger-service/internal/consumer/payment_consumer.go:95-133 | a program's call is exactly one step of the transition system |
| Common.WrapMeaning | services/ledger-service/internal/service/ledger_service.go:125-151 | an int64 result differs from the true one by a multiple of 2^64 |
| Common.TrimDrops | services/payment-service/internal/service/payment_service.go:36-41 | trimming removes spaces at both ends, all of them, and nothing else |
| Common.NormalCurrencyStable | services/ledger-service/internal/service/ledger_service.go:76-79 | a currency accepted by the payment service is unchanged by the ledger's normalisation |

## Left out

- HTTP handlers, routers, middleware, API keys, tokens, gateway proxying and `clientKey`: plumbing over libraries; the limiter is driven with keys.
- The Kafka client, TLS, SASL, group rebalancing, partitioning by key and log truncation: partitions are append-only logs with one consumer each, and a message may go to any partition.
- PostgreSQL internals: a transaction is one atomic step; `SKIP LOCKED` is a free choice of claimable rows within the limit.
- JSON, base64, hex and SHA-256: faithful encodings and an injective function; a message body is one of the two payloads or bytes that do not decode.
- UUID text variants (upper case, braces, URN prefix): a UUID text is its identifier, and other texts do not parse as one.
- Unicode: case, letters and spaces are ASCII, so a currency of non-ASCII letters is outside the model; lengths count characters.
- Ordering and fairness: the code does not order events of one payment; delivery is shown to be possible, not to happen.
- Forged events: other producers do not write what the ledger would accept as a movement; it would post that like the service's own.
- Trace context: the headers a tracer injects are arbitrary; the stored trace columns, metrics and logs are absent.
- `last_error`, `created_at`, `updated_at` and the audit's failure text: never read by the modelled code.
- Configuration loading, `cmd/` mains, the migration runner, scripts, manifests and load tests.
- `RecordPaymentMovement` and `CreateTransaction`: the path without deduplication, which no command calls.
- One clock: service and database stamps share it, it never runs backwards, and a stamp is taken at the step that stores it.
- Identifiers: generated ones are fresh, and are drawn just before the step that stores them.
- A maximum of less than one consumer attempt: the configuration check excludes it, and `HandleWithRetry` requires it.
- ConsumerProgram.RunOnce: is one turn of the endless loop; a fetch that fails, which starts the turn over, and a cancelled one, which ends the process before it, are left out.
- OutboxPublisherProgram.PublishBatch: is one batch; the polling ticker of `Run` is not modelled.
- TrialBalance.ListBalances: lists in table order, not by name and currency; the order is not read anywhere.
- ExactlyOnce.EntriesOfPayment: speaks of the selected rows in table order; the query's order by creation time and id is not modelled, and entries carry no creation time.
- RateLimiter.Limiter.Allow: counts in unbounded integers, so it does not model 2^63 calls within one window, and its clock is later than Go's zero time.
- Retention.RunRule: a row locked by somebody else is skipped by choice of the environment; the count and delete statements may fail at any turn.
- PaymentServiceProgram.UpdateStatus: parsing the id and the status text is left out; an unknown status is answered before any call.
