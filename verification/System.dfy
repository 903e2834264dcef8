/** FinFlow as one labelled transition system: the payment API, any number of outbox publishers,
    the ledger consumer, replay operators, retention, a clock, and other producers.

    Every SQL transaction and every broker request is one atomic step; the program's own sequencing
    between them is local state of the actor, which a crash throws away. Fields marked `history` are
    not stored anywhere: they only remember what happened, so that properties can speak of it. */
module System {
  import opened Common
  import opened Messages
  import opened DeadLetter
  import Ledger
  import Rules = PaymentRules

  /** What deployment fixes; durations are in the unit of the clock. */
  datatype Config = Config(topic: string, maxAttempts: int, outboxRetention: int, consumedRetention: int,
    replayRetention: int)

  // ----- the payment API

  datatype Payment = Payment(amount: int, currency: string, status: PaymentStatus, description: string,
    reference: string, key: string, hash: string)

  /** A request between two of its statements. */
  datatype Client =
    | Replaying(key: string, hash: string)
    | Updating(payment: nat, previous: PaymentStatus, target: PaymentStatus)

  datatype Reply =
    | CreatedReply(key: string, payment: nat)
    | ReplayReply(key: string, hash: string, payment: nat)
    | ConflictReply(key: string, hash: string)
    | MissingReply(key: string)
    | StatusReply(payment: nat, status: PaymentStatus)
    | InvalidReply(payment: nat)
    | NotFoundReply(payment: nat)

  datatype Api = Api(
    payments: map<nat, Payment>,
    keyIndex: map<string, nat>,    // the unique index on idempotency_key
    clients: map<nat, Client>,
    replies: seq<Reply>)           // history

  // ----- the outbox

  datatype Event = Event(aggregateId: Text, eventType: Text, payload: Body)

  function NewPaymentCreated(id: nat, p: Payment): (e: Event) {
    Event(Uuid(id), PAYMENT_CREATED, CreatedBody(Uuid(id), p.amount, p.currency))
  }

  function NewPaymentStatusChanged(previous: PaymentStatus, id: nat, status: PaymentStatus): (e: Event) {
    Event(Uuid(id), STATUS_CHANGED, StatusBody(Uuid(id), previous, status))
  }

  datatype OutboxStatus = Waiting | Publishing | Published | Unsent

  datatype OutboxRow = OutboxRow(event: Event, status: OutboxStatus, attempts: nat, publishedAt: Option<int>)

  datatype Claim = Claim(id: nat, event: Event)

  /** A publisher inside `PublishBatch`: the claimed events still to do, and the result of the
      write of the first of them once it has been issued. */
  datatype Publisher = Publisher(queue: seq<Claim>, wrote: Option<bool>)

  datatype Box = Box(
    rows: map<nat, OutboxRow>,
    publishers: map<nat, Publisher>,
    events: map<nat, Event>,       // history: every event ever inserted
    created: map<nat, nat>,        // history: the created event of each payment
    writes: map<nat, nat>,         // history: write calls per event
    marks: map<nat, nat>)          // history: mark calls per event

  // ----- the topic and its consumer

  datatype Stage = Start | CashReady(cash: nat) | BothReady(cash: nat, payable: nat)

  /** The consumer of one partition. It always works on the message at the committed offset. */
  datatype Consumer =
    | Idle
    | Handling(attempt: int, stage: Stage)
    | Broken(attempts: int)
    | Settled

  datatype Partition = Partition(log: seq<Message>, committed: nat, consumer: Consumer)

  datatype Bus = Bus(partitions: seq<Partition>, deadLetters: seq<Record>)

  // ----- the ledger

  datatype Posting = Posting(event: nat, request: Ledger.Request, cash: nat, payable: nat, transaction: nat,
    debitId: nat, creditId: nat)

  datatype Books = Books(
    accounts: seq<Ledger.Account>,
    consumed: map<nat, int>,       // event id to consumed_at
    entries: seq<Ledger.Entry>,
    postings: seq<Posting>,        // history: the committed movements, in order
    ids: set<nat>,                 // history: every identifier ever generated here
    purged: set<nat>,              // history: events whose dedup row retention removed
    stamps: map<nat, int>)         // history: the latest consumed_at of each event

  // ----- the replay audit

  datatype ReplayStatus = Started | ReplaySucceeded | ReplayFailed

  datatype ReplayRow = ReplayRow(id: nat, operator: string, reason: string, status: ReplayStatus,
    completedAt: Option<int>)

  datatype Operator = Operator(audit: nat, record: Record, wrote: Option<bool>)

  datatype Audit = Audit(
    rows: map<Text, ReplayRow>,
    operators: map<nat, Operator>,
    ids: set<nat>,                 // history: audit ids ever generated
    acks: map<Text, nat>,          // history: acknowledged republications per event
    purged: set<Text>)             // history: events whose audit row retention removed

  datatype State = State(now: int, api: Api, box: Box, bus: Bus, books: Books, audit: Audit)

  function Init(partitions: nat): (after: State) {
    State(0,
      Api(map[], map[], map[], []),
      Box(map[], map[], map[], map[], map[], map[]),
      Bus(seq(partitions, _ => Partition([], 0, Idle)), []),
      Books([], map[], [], [], {}, {}, map[]),
      Audit(map[], map[], {}, map[], {}))
  }

  function Count<K>(m: map<K, nat>, k: K): (n: nat) { if k in m then m[k] else 0 }

  function Without<K, V>(m: map<K, V>, k: K): (r: map<K, V>) { m - {k} }

  // ----- labels

  datatype ApiCall =
    | Insert(id: nat, event: nat, request: Rules.CreateRequest, key: string, outcome: Outcome)
    | Select(outcome: Outcome)
    | ReadCurrent(id: nat, target: PaymentStatus)
    | Swap(event: nat, outcome: Outcome)
    | Abandon

  datatype PublisherCall =
    | ClaimPending(limit: int, chosen: seq<nat>, outcome: Outcome)
    | Write(id: nat, trace: seq<Header>, to: nat, copies: nat, acked: bool)
    | Mark(id: nat, published: bool, outcome: Outcome)
    | PublisherCrash

  datatype ConsumerCall =
    | Fetch
    | Decide
    | EnsureCash(id: nat, outcome: Outcome)
    | EnsurePayable(id: nat, outcome: Outcome)
    | Post(transaction: nat, debitId: nat, creditId: nat, outcome: Outcome)
    | Bury(cause: string, copies: nat, acked: bool)
    | Commit(outcome: Outcome)
    | ConsumerCrash

  datatype OperatorCall =
    | StartReplay(index: nat, name: string, reason: string, id: nat, outcome: Outcome)
    | Republish(at: Text, to: nat, copies: nat, acked: bool)
    | FinishReplay(succeeded: bool, outcome: Outcome)
    | OperatorCrash

  datatype PurgeCall = PurgeOutbox(rows: set<nat>) | PurgeConsumed(rows: set<nat>) | PurgeReplays(keys: set<Text>)

  datatype Label =
    | Tick(elapsed: nat)
    | Client(client: nat, request: ApiCall)
    | Publish(publisher: nat, call: PublisherCall)
    | Consume(partition: nat, step: ConsumerCall)
    | Operate(operator: nat, command: OperatorCall)
    | Purge(cutoff: int, batch: PurgeCall)
    | Produce(to: nat, message: Message)

  // ----- payment API steps

  /** The requests `PaymentService.Create` passes on and the text columns can hold. */
  predicate Creatable(r: Rules.CreateRequest, key: string) {
    Rules.ValidCreate(r, key) && Rules.Storable(r) && Rules.NulFree(key)
  }

  /** The row a normalised request asks for; the hash is kept only beside a key. */
  function NewPayment(r: Rules.CreateRequest, key: string): (p: Payment) {
    Payment(r.amount, r.currency, Pending, r.description, r.reference, key,
      if key == "" then "" else Rules.RequestHash(r))
  }

  /** The insert of `Create`: a payment with its outbox row, or nothing when the key is taken. */
  function InsertPayment(s: State, client: nat, id: nat, event: nat, p: Payment, outcome: Outcome): (after: State) {
    if !outcome.TookEffect() then s
    else if p.key != "" && p.key in s.api.keyIndex then
      if outcome.Acked() then s.(api := s.api.(clients := s.api.clients[client := Replaying(p.key, p.hash)])) else s
    else
      s.(api := s.api.(
           payments := s.api.payments[id := p],
           keyIndex := if p.key == "" then s.api.keyIndex else s.api.keyIndex[p.key := id],
           replies := if outcome.Acked() then s.api.replies + [CreatedReply(p.key, id)] else s.api.replies),
         box := InsertEvent(s.box, event, NewPaymentCreated(id, p)).(created := s.box.created[id := event]))
  }

  function CreatePayment(s: State, client: nat, id: nat, event: nat, raw: Rules.CreateRequest, rawKey: string,
        outcome: Outcome): (after: State)
  {
    var r, key := Rules.Normalise(raw), Trim(rawKey);
    if Creatable(r, key) then InsertPayment(s, client, id, event, NewPayment(r, key), outcome) else s
  }

  function InsertEvent(b: Box, id: nat, e: Event): (after: Box) {
    b.(rows := b.rows[id := OutboxRow(e, Waiting, 0, None)], events := b.events[id := e])
  }

  /** The select that follows an insert refused by the unique index. */
  function SelectExisting(s: State, client: nat, key: string, hash: string, outcome: Outcome): (after: State) {
    var reply :=
      if !outcome.TookEffect() then []
      else if key !in s.api.keyIndex || s.api.keyIndex[key] !in s.api.payments then [MissingReply(key)]
      else if s.api.payments[s.api.keyIndex[key]].hash != hash then [ConflictReply(key, hash)]
      else if outcome.Acked() then [ReplayReply(key, hash, s.api.keyIndex[key])]
      else [];
    s.(api := s.api.(clients := Without(s.api.clients, client), replies := s.api.replies + reply))
  }

  function ReadStatus(s: State, client: nat, id: nat, target: PaymentStatus): (after: State) {
    if id !in s.api.payments then Answer(s, NotFoundReply(id))
    else
      var current := s.api.payments[id].status;
      if current == target then Answer(s, StatusReply(id, target))
      else if !Rules.CanTransition(current, target) then Answer(s, InvalidReply(id))
      else s.(api := s.api.(clients := s.api.clients[client := Updating(id, current, target)]))
  }

  function Answer(s: State, reply: Reply): (after: State) { s.(api := s.api.(replies := s.api.replies + [reply])) }

  /** `UPDATE ... WHERE id = $1 AND status = $3`, with the event in the same transaction. */
  function CompareAndSet(s: State, client: nat, id: nat, previous: PaymentStatus, target: PaymentStatus, event: nat,
        outcome: Outcome): (after: State)
  {
    var left := s.(api := s.api.(clients := Without(s.api.clients, client)));
    if !outcome.TookEffect() then left
    else if id !in s.api.payments || s.api.payments[id].status != previous then Answer(left, NotFoundReply(id))
    else
      var p := s.api.payments[id].(status := target);
      var updated := left.(
        api := left.api.(payments := s.api.payments[id := p]),
        box := InsertEvent(s.box, event, NewPaymentStatusChanged(previous, id, target)));
      if outcome.Acked() then Answer(updated, StatusReply(id, target)) else updated
  }

  // ----- outbox publisher steps

  predicate Claimable(b: Box, id: nat) {
    id in b.rows && (b.rows[id].status == Waiting || b.rows[id].status == Unsent)
  }

  predicate NoDuplicates<T(==)>(xs: seq<T>) { forall i, j :: 0 <= i < j < |xs| ==> xs[i] != xs[j] }

  function BatchLimit(limit: int): (n: nat) { if limit <= 0 then 25 else limit }

  /** SKIP LOCKED: any claimable rows, at most the batch limit. */
  predicate CanClaim(b: Box, limit: int, chosen: seq<nat>) {
    |chosen| <= BatchLimit(limit) && NoDuplicates(chosen) && forall i :: 0 <= i < |chosen| ==> Claimable(b, chosen[i])
  }

  function ClaimRows(rows: map<nat, OutboxRow>, chosen: seq<nat>): (r: map<nat, OutboxRow>) {
    map id | id in rows ::
      if id in chosen then rows[id].(status := Publishing, attempts := rows[id].attempts + 1) else rows[id]
  }

  function Claims(rows: map<nat, OutboxRow>, chosen: seq<nat>): (r: seq<Claim>)
    requires forall i :: 0 <= i < |chosen| ==> chosen[i] in rows
  {
    seq(|chosen|, i requires 0 <= i < |chosen| => Claim(chosen[i], rows[chosen[i]].event))
  }

  function TakeBatch(b: Box, publisher: nat, limit: int, chosen: seq<nat>, outcome: Outcome): (after: Box)
    requires CanClaim(b, limit, chosen)
  {
    if !outcome.TookEffect() then b
    else
      var claimed := b.(rows := ClaimRows(b.rows, chosen));
      if outcome.Acked() && chosen != []
      then claimed.(publishers := b.publishers[publisher := Publisher(Claims(b.rows, chosen), None)])
      else claimed
  }

  /** The message `publishOne` writes; `trace` is whatever the tracer injects. */
  function EventMessage(topic: string, c: Claim, trace: seq<Header>): (m: Message) {
    Message(topic, c.event.aggregateId, c.event.payload,
      [Header(EVENT_ID, Uuid(c.id)), Header(EVENT_TYPE, c.event.eventType),
        Header(AGGREGATE_TYPE, AGGREGATE_PAYMENT)] + trace)
  }

  function Repeat<T>(x: T, n: nat): (r: seq<T>) { seq(n, _ => x) }

  /** A write call may append any number of copies, at least one if it is acknowledged. */
  function AppendTo(bus: Bus, partition: nat, m: Message, copies: nat): (after: Bus)
    requires partition < |bus.partitions|
  {
    var p := bus.partitions[partition];
    bus.(partitions := bus.partitions[partition := p.(log := p.log + Repeat(m, copies))])
  }

  predicate CanAppend(bus: Bus, partition: nat, copies: nat, acked: bool) {
    partition < |bus.partitions| && (acked ==> copies >= 1)
  }

  function AfterWrite(b: Box, publisher: nat, acked: bool): (after: Box)
    requires publisher in b.publishers && b.publishers[publisher].queue != []
  {
    var p := b.publishers[publisher];
    b.(publishers := b.publishers[publisher := p.(wrote := Some(acked))],
       writes := b.writes[p.queue[0].id := Count(b.writes, p.queue[0].id) + 1])
  }

  /** `MarkPublished` or `MarkFailed`; neither looks at the row's status. */
  function MarkRow(rows: map<nat, OutboxRow>, id: nat, published: bool, now: int): (r: map<nat, OutboxRow>) {
    if id !in rows then rows
    else if published then rows[id := rows[id].(status := Published, publishedAt := Some(now))]
    else rows[id := rows[id].(status := Unsent)]
  }

  function AfterMark(b: Box, publisher: nat, now: int, outcome: Outcome): (after: Box)
    requires publisher in b.publishers && b.publishers[publisher].queue != [] && b.publishers[publisher].wrote.Some?
  {
    var p := b.publishers[publisher];
    var id := p.queue[0].id;
    b.(rows := if outcome.TookEffect() then MarkRow(b.rows, id, p.wrote.value, now) else b.rows,
       publishers := if |p.queue| == 1 then Without(b.publishers, publisher)
                     else b.publishers[publisher := Publisher(p.queue[1..], None)],
       marks := b.marks[id := Count(b.marks, id) + 1])
  }

  // ----- consumer steps

  function SetConsumer(bus: Bus, partition: nat, c: Consumer): (after: Bus)
    requires partition < |bus.partitions|
  {
    bus.(partitions := bus.partitions[partition := bus.partitions[partition].(consumer := c)])
  }

  predicate Current(bus: Bus, partition: nat) {
    partition < |bus.partitions| && bus.partitions[partition].committed < |bus.partitions[partition].log|
  }

  /** The message at the committed offset: the one the consumer holds while it is not idle. */
  function Held(bus: Bus, partition: nat): (m: Message)
    requires Current(bus, partition)
  {
    bus.partitions[partition].log[bus.partitions[partition].committed]
  }

  predicate Handles(bus: Bus, partition: nat) {
    Current(bus, partition) && bus.partitions[partition].consumer.Handling?
  }

  /** A failed attempt is retried unless it was the last. */
  function AfterFailure(c: Consumer, maxAttempts: int): (after: Consumer)
    requires c.Handling?
  {
    if c.attempt >= maxAttempts then Broken(c.attempt) else Handling(c.attempt + 1, Start)
  }

  /** The movement the ledger would record for the held message, if it accepts it. */
  function HeldMovement(bus: Bus, partition: nat): (r: Option<(nat, Ledger.Request)>)
    requires Current(bus, partition)
  {
    MovementOf(Held(bus, partition))
  }

  /** The outcome of an attempt that ends before the ledger's database is called. */
  function DecideLocally(cfg: Config, c: Consumer, m: Message): (after: Consumer)
    requires c.Handling?
  {
    match Read(m)
    case Poison => Broken(c.attempt)
    case Ignored => Settled
    case ToLedger(eventId, request) =>
      if Acceptable(eventId, request) == None then AfterFailure(c, cfg.maxAttempts) else c
  }

  function AccountIndex(accounts: seq<Ledger.Account>, name: string, currency: string): (i: int)
    ensures -1 <= i < |accounts|
    ensures i >= 0 ==> accounts[i].name == name && accounts[i].currency == currency
    ensures i < 0 ==> forall j :: 0 <= j < |accounts| ==> accounts[j].name != name || accounts[j].currency != currency
  {
    if accounts == [] then -1
    else
      var n := |accounts| - 1;
      if accounts[n].name == name && accounts[n].currency == currency then n
      else AccountIndex(accounts[..n], name, currency)
  }

  /** `EnsureAccount`: the existing row wins, with its own id. */
  function EnsureAccount(b: Books, name: string, currency: string, normal: Ledger.Direction, id: nat): (r: (Books, nat))
  {
    var i := AccountIndex(b.accounts, name, currency);
    if i >= 0 then (b, b.accounts[i].id)
    else (b.(accounts := b.accounts + [Ledger.Account(id, name, currency, normal)], ids := b.ids + {id}), id)
  }

  function EntriesOf(p: Posting): (r: seq<Ledger.Entry>) {
    Ledger.Movement(p.request, p.cash, p.payable, p.transaction, p.debitId, p.creditId)
  }

  /** `CreateTransactionOnce`: nothing if the event is already recorded, else the dedup row and the entries. */
  function PostOnce(b: Books, p: Posting, now: int): (after: Books) {
    if p.event in b.consumed then b
    else b.(
      consumed := b.consumed[p.event := now],
      entries := b.entries + EntriesOf(p),
      postings := b.postings + [p],
      ids := b.ids + {p.transaction, p.debitId, p.creditId},
      stamps := b.stamps[p.event := now])
  }

  // ----- replay steps

  /** The conditional upsert: a new audit row, or a failed one claimed again under its old id. */
  function ClaimReplay(a: Audit, key: Text, name: string, reason: string, id: nat): (r: (Audit, Option<nat>)) {
    if key !in a.rows then
      (a.(rows := a.rows[key := ReplayRow(id, name, reason, Started, None)], ids := a.ids + {id}), Some(id))
    else if a.rows[key].status == ReplayFailed then
      (a.(rows := a.rows[key := ReplayRow(a.rows[key].id, name, reason, Started, None)]), Some(a.rows[key].id))
    else (a, None)
  }

  function BeginReplay(a: Audit, operator: nat, record: Record, topic: string, name: string, reason: string, id: nat,
        outcome: Outcome): (after: Audit)
  {
    if !Replayable(record, topic, name, reason) || !outcome.TookEffect() then a
    else
      var (claimed, audit) := ClaimReplay(a, record.eventId, name, reason, id);
      if audit.Some? && outcome.Acked()
      then claimed.(operators := a.operators[operator := Operator(audit.value, record, None)])
      else claimed
  }

  function AfterRepublish(a: Audit, operator: nat, acked: bool): (after: Audit)
    requires operator in a.operators
  {
    var o := a.operators[operator];
    a.(operators := a.operators[operator := o.(wrote := Some(acked))],
       acks := if acked then a.acks[o.record.eventId := Count(a.acks, o.record.eventId) + 1] else a.acks)
  }

  /** `UPDATE ... WHERE id = $1`; the status is not checked. */
  function FinishRows(rows: map<Text, ReplayRow>, id: nat, succeeded: bool, now: int): (r: map<Text, ReplayRow>) {
    map k | k in rows :: if rows[k].id == id
      then rows[k].(status := if succeeded then ReplaySucceeded else ReplayFailed, completedAt := Some(now))
      else rows[k]
  }

  function EndReplay(a: Audit, operator: nat, now: int, outcome: Outcome): (after: Audit)
    requires operator in a.operators && a.operators[operator].wrote.Some?
  {
    var o := a.operators[operator];
    a.(rows := if outcome.TookEffect() then FinishRows(a.rows, o.audit, o.wrote.value, now) else a.rows,
       operators := Without(a.operators, operator))
  }

  // ----- retention

  predicate OutboxEligible(rows: map<nat, OutboxRow>, id: nat, cutoff: int) {
    id in rows && rows[id].status == Published && rows[id].publishedAt.Some? && rows[id].publishedAt.value < cutoff
  }

  predicate ConsumedEligible(consumed: map<nat, int>, id: nat, cutoff: int) {
    id in consumed && consumed[id] < cutoff
  }

  predicate ReplayEligible(rows: map<Text, ReplayRow>, k: Text, cutoff: int) {
    k in rows && (rows[k].status == ReplaySucceeded || rows[k].status == ReplayFailed) && rows[k].completedAt.Some? &&
      rows[k].completedAt.value < cutoff
  }

  // ----- the transition function, actor by actor

  predicate ClientEnabled(s: State, c: nat, call: ApiCall) {
    match call
    case Insert(id, event, request, _, _) =>
      c !in s.api.clients && IsInt64(request.amount) && id !in s.api.payments && event !in s.box.events
    case Select(_) => c in s.api.clients && s.api.clients[c].Replaying?
    case ReadCurrent(_, _) => c !in s.api.clients
    case Swap(event, _) => c in s.api.clients && s.api.clients[c].Updating? && event !in s.box.events
    case Abandon => c in s.api.clients
  }

  function ClientStep(s: State, c: nat, call: ApiCall): (after: State)
    requires ClientEnabled(s, c, call)
  {
    match call
    case Insert(id, event, request, key, outcome) => CreatePayment(s, c, id, event, request, key, outcome)
    case Select(outcome) => SelectExisting(s, c, s.api.clients[c].key, s.api.clients[c].hash, outcome)
    case ReadCurrent(id, target) => ReadStatus(s, c, id, target)
    case Swap(event, outcome) =>
      var u := s.api.clients[c];
      CompareAndSet(s, c, u.payment, u.previous, u.target, event, outcome)
    case Abandon => s.(api := s.api.(clients := Without(s.api.clients, c)))
  }

  /** The publisher's next event, and the result of its write if it has been issued. */
  predicate WorksOn(b: Box, p: nat, id: nat, wrote: Option<bool>) {
    && p in b.publishers && b.publishers[p].queue != []
    && b.publishers[p].queue[0].id == id && b.publishers[p].wrote == wrote
  }

  predicate PublisherEnabled(s: State, p: nat, call: PublisherCall) {
    match call
    case ClaimPending(limit, chosen, _) => p !in s.box.publishers && CanClaim(s.box, limit, chosen)
    case Write(id, _, to, copies, acked) => WorksOn(s.box, p, id, None) && CanAppend(s.bus, to, copies, acked)
    case Mark(id, published, _) => WorksOn(s.box, p, id, Some(published))
    case PublisherCrash => p in s.box.publishers
  }

  function PublisherStep(cfg: Config, s: State, p: nat, call: PublisherCall): (after: State)
    requires PublisherEnabled(s, p, call)
  {
    match call
    case ClaimPending(limit, chosen, outcome) => s.(box := TakeBatch(s.box, p, limit, chosen, outcome))
    case Write(_, trace, to, copies, acked) =>
      s.(box := AfterWrite(s.box, p, acked),
         bus := AppendTo(s.bus, to, EventMessage(cfg.topic, s.box.publishers[p].queue[0], trace), copies))
    case Mark(_, _, outcome) => s.(box := AfterMark(s.box, p, s.now, outcome))
    case PublisherCrash => s.(box := s.box.(publishers := Without(s.box.publishers, p)))
  }

  predicate ConsumerEnabled(s: State, k: nat, call: ConsumerCall) {
    match call
    case Fetch => Current(s.bus, k) && s.bus.partitions[k].consumer == Idle
    case Decide => Handles(s.bus, k) && s.bus.partitions[k].consumer.stage == Start && HeldMovement(s.bus, k) == None
    case EnsureCash(id, _) =>
      Handles(s.bus, k) && s.bus.partitions[k].consumer.stage == Start && HeldMovement(s.bus, k).Some? &&
        id !in s.books.ids
    case EnsurePayable(id, _) =>
      Handles(s.bus, k) && s.bus.partitions[k].consumer.stage.CashReady? && HeldMovement(s.bus, k).Some? &&
        id !in s.books.ids
    case Post(t, d, c, _) =>
      Handles(s.bus, k) && s.bus.partitions[k].consumer.stage.BothReady? && HeldMovement(s.bus, k).Some? &&
      t !in s.books.ids && d !in s.books.ids && c !in s.books.ids && t != d && t != c && d != c
    case Bury(_, copies, acked) => Current(s.bus, k) && s.bus.partitions[k].consumer.Broken? && (acked ==> copies >= 1)
    case Commit(_) => Current(s.bus, k) && s.bus.partitions[k].consumer == Settled
    case ConsumerCrash => k < |s.bus.partitions|
  }

  /** The posting the consumer's transaction would commit. */
  function HeldPosting(s: State, k: nat, transaction: nat, debitId: nat, creditId: nat): (p: Posting)
    requires Handles(s.bus, k) && s.bus.partitions[k].consumer.stage.BothReady? && HeldMovement(s.bus, k).Some?
  {
    var movement := HeldMovement(s.bus, k).value;
    var stage := s.bus.partitions[k].consumer.stage;
    Posting(movement.0, movement.1, stage.cash, stage.payable, transaction, debitId, creditId)
  }

  /** An acknowledged call moves the attempt on to `next`; an error fails the attempt. */
  function AfterCall(cfg: Config, s: State, k: nat, next: Consumer, outcome: Outcome): (after: Bus)
    requires Handles(s.bus, k)
  {
    SetConsumer(s.bus, k, if outcome.Acked() then next else AfterFailure(s.bus.partitions[k].consumer, cfg.maxAttempts))
  }

  function ConsumerStep(cfg: Config, s: State, k: nat, call: ConsumerCall): (after: State)
    requires ConsumerEnabled(s, k, call)
  {
    var c := s.bus.partitions[k].consumer;
    match call
    case Fetch => s.(bus := SetConsumer(s.bus, k, Handling(1, Start)))
    case Decide => s.(bus := SetConsumer(s.bus, k, DecideLocally(cfg, c, Held(s.bus, k))))
    case EnsureCash(id, outcome) =>
      var (books, account) := EnsureAccount(s.books, Ledger.CASH, HeldMovement(s.bus, k).value.1.currency,
        Ledger.Debit, id);
      s.(books := if outcome.TookEffect() then books else s.books,
         bus := AfterCall(cfg, s, k, c.(stage := CashReady(account)), outcome))
    case EnsurePayable(id, outcome) =>
      var (books, account) := EnsureAccount(s.books, Ledger.PAYABLE, HeldMovement(s.bus, k).value.1.currency,
        Ledger.Credit, id);
      s.(books := if outcome.TookEffect() then books else s.books,
         bus := AfterCall(cfg, s, k, c.(stage := BothReady(c.stage.cash, account)), outcome))
    case Post(t, d, e, outcome) =>
      s.(books := if outcome.TookEffect() then PostOnce(s.books, HeldPosting(s, k, t, d, e), s.now) else s.books,
         bus := AfterCall(cfg, s, k, Settled, outcome))
    case Bury(cause, copies, acked) =>
      var record := RecordOf(Held(s.bus, k), k, s.bus.partitions[k].committed, cause, c.attempts, s.now);
      var bus := SetConsumer(s.bus, k, if acked then Settled else Idle);
      s.(bus := bus.(deadLetters := s.bus.deadLetters + Repeat(record, copies)))
    case Commit(outcome) =>
      var p := s.bus.partitions[k];
      s.(bus := s.bus.(partitions := s.bus.partitions[k := p.(
        committed := if outcome.TookEffect() then p.committed + 1 else p.committed, consumer := Idle)]))
    case ConsumerCrash => s.(bus := SetConsumer(s.bus, k, Idle))
  }

  predicate OperatorEnabled(s: State, o: nat, call: OperatorCall) {
    match call
    case StartReplay(index, _, _, id, _) => o !in s.audit.operators && index < |s.bus.deadLetters| && id !in s.audit.ids
    case Republish(_, to, copies, acked) =>
      o in s.audit.operators && s.audit.operators[o].wrote == None && CanAppend(s.bus, to, copies, acked)
    case FinishReplay(succeeded, _) => o in s.audit.operators && s.audit.operators[o].wrote == Some(succeeded)
    case OperatorCrash => o in s.audit.operators
  }

  function OperatorStep(cfg: Config, s: State, o: nat, call: OperatorCall): (after: State)
    requires OperatorEnabled(s, o, call)
  {
    match call
    case StartReplay(index, name, reason, id, outcome) =>
      s.(audit := BeginReplay(s.audit, o, s.bus.deadLetters[index], cfg.topic, name, reason, id, outcome))
    case Republish(at, to, copies, acked) =>
      var op := s.audit.operators[o];
      s.(audit := AfterRepublish(s.audit, o, acked),
         bus := AppendTo(s.bus, to, ReplayMessage(op.record, cfg.topic, at, op.audit), copies))
    case FinishReplay(_, outcome) => s.(audit := EndReplay(s.audit, o, s.now, outcome))
    case OperatorCrash => s.(audit := s.audit.(operators := Without(s.audit.operators, o)))
  }

  predicate PurgeEnabled(cfg: Config, s: State, cutoff: int, batch: PurgeCall) {
    match batch
    case PurgeOutbox(rows) =>
      cutoff <= s.now - cfg.outboxRetention && forall id :: id in rows ==> OutboxEligible(s.box.rows, id, cutoff)
    case PurgeConsumed(rows) =>
      cutoff <= s.now - cfg.consumedRetention &&
      forall id :: id in rows ==> ConsumedEligible(s.books.consumed, id, cutoff)
    case PurgeReplays(keys) =>
      cutoff <= s.now - cfg.replayRetention && forall k :: k in keys ==> ReplayEligible(s.audit.rows, k, cutoff)
  }

  function PurgeStep(s: State, batch: PurgeCall): (after: State) {
    match batch
    case PurgeOutbox(rows) => s.(box := s.box.(rows := s.box.rows - rows))
    case PurgeConsumed(rows) =>
      s.(books := s.books.(consumed := s.books.consumed - rows, purged := s.books.purged + rows))
    case PurgeReplays(keys) => s.(audit := s.audit.(rows := s.audit.rows - keys, purged := s.audit.purged + keys))
  }

  /** Anybody may write to the topic whatever the ledger takes for no movement: poison, requests it rejects, and event
      types it does not know, under whatever event id. */
  predicate ProduceEnabled(cfg: Config, s: State, to: nat, message: Message) {
    to < |s.bus.partitions| && message.topic == cfg.topic && MovementOf(message) == None
  }

  predicate Enabled(cfg: Config, s: State, l: Label) {
    match l
    case Tick(_) => true
    case Client(c, request) => ClientEnabled(s, c, request)
    case Publish(p, call) => PublisherEnabled(s, p, call)
    case Consume(k, step) => ConsumerEnabled(s, k, step)
    case Operate(o, command) => OperatorEnabled(s, o, command)
    case Purge(cutoff, batch) => PurgeEnabled(cfg, s, cutoff, batch)
    case Produce(to, message) => ProduceEnabled(cfg, s, to, message)
  }

  function Apply(cfg: Config, s: State, l: Label): (after: State)
    requires Enabled(cfg, s, l)
  {
    match l
    case Tick(elapsed) => s.(now := s.now + elapsed)
    case Client(c, request) => ClientStep(s, c, request)
    case Publish(p, call) => PublisherStep(cfg, s, p, call)
    case Consume(k, step) => ConsumerStep(cfg, s, k, step)
    case Operate(o, command) => OperatorStep(cfg, s, o, command)
    case Purge(_, batch) => PurgeStep(s, batch)
    case Produce(to, message) => s.(bus := AppendTo(s.bus, to, message, 1))
  }

  /** A schedule is any sequence of labels; a label that is not enabled is skipped. */
  function Step(cfg: Config, s: State, l: Label): (after: State) {
    if Enabled(cfg, s, l) then Apply(cfg, s, l) else s
  }

  function Run(cfg: Config, s: State, schedule: seq<Label>): (after: State) {
    if schedule == [] then s else Step(cfg, Run(cfg, s, schedule[..|schedule| - 1]), schedule[|schedule| - 1])
  }

  lemma RunLast(cfg: Config, s: State, schedule: seq<Label>, l: Label)
    ensures Run(cfg, s, schedule + [l]) == Step(cfg, Run(cfg, s, schedule), l)
  {
    assert (schedule + [l])[..|schedule|] == schedule;
  }

  lemma {:induction false} RunAppend(cfg: Config, s: State, first: seq<Label>, second: seq<Label>)
    ensures Run(cfg, s, first + second) == Run(cfg, Run(cfg, s, first), second)
  {
    if second == [] {
      assert first + second == first;
    } else {
      var n := |second| - 1;
      RunAppend(cfg, s, first, second[..n]);
      assert first + second == first + second[..n] + [second[n]];
      RunLast(cfg, s, first + second[..n], second[n]);
    }
  }

  lemma RunFirst(cfg: Config, s: State, l: Label, rest: seq<Label>)
    ensures Run(cfg, s, [l] + rest) == Run(cfg, Step(cfg, s, l), rest)
  {
    RunAppend(cfg, s, [l], rest);
    assert [] + [l] == [l];
    RunLast(cfg, s, [], l);
  }

  lemma RunTwo(cfg: Config, s: State, first: Label, second: Label)
    ensures Run(cfg, s, [first, second]) == Step(cfg, Step(cfg, s, first), second)
  {
    assert [first, second] == [first] + [second];
    RunFirst(cfg, s, first, [second]);
    assert [second] == [second] + [];
    RunFirst(cfg, Step(cfg, s, first), second, []);
  }

  function Reached(cfg: Config, partitions: nat, schedule: seq<Label>): (after: State) {
    Run(cfg, Init(partitions), schedule)
  }
}
