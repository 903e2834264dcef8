/** The event history mirrors the payments table: one created event per payment, carrying its amount. */
module History {
  import opened Common
  import opened Messages
  import opened DeadLetter
  import opened Wire
  import opened System
  import opened OutboxProtocol
  import Ledger
  import Rules = PaymentRules

  predicate IsCreated(e: Event) { e.eventType == PAYMENT_CREATED }

  ghost predicate PaymentOk(p: Payment) { 0 < p.amount <= MAX_INT64 && IsCurrency(p.currency) }

  /** An event of the history belongs to a payment: it is that payment's created event, or a status event. */
  ghost predicate EventOk(payments: map<nat, Payment>, created: map<nat, nat>, id: nat, e: Event) {
    && e.aggregateId.Uuid? && e.aggregateId.id in payments && e.aggregateId.id in created
    && (if IsCreated(e)
        then e == NewPaymentCreated(e.aggregateId.id, payments[e.aggregateId.id]) && created[e.aggregateId.id] == id
        else e.eventType == STATUS_CHANGED && e.payload.StatusBody? && created[e.aggregateId.id] != id)
  }

  ghost predicate CreatedEventOf(b: Box, id: nat, p: Payment) {
    id in b.created && b.created[id] in b.events && b.events[b.created[id]] == NewPaymentCreated(id, p)
  }

  ghost predicate HistoryOk(payments: map<nat, Payment>, b: Box) {
    && (forall p :: p in payments ==> PaymentOk(payments[p]) && CreatedEventOf(b, p, payments[p]))
    && (forall id :: id in b.events ==> EventOk(payments, b.created, id, b.events[id]))
  }

  /** Inserting an event under a fresh id disturbs no other payment or event. */
  lemma EventInserted(payments: map<nat, Payment>, payments': map<nat, Payment>, b: Box, b': Box, id: nat)
    requires HistoryOk(payments, b) && id !in b.events && id in b'.events && b'.events == b.events[id := b'.events[id]]
    requires forall p :: p in payments ==>
      p in payments' && payments'[p].amount == payments[p].amount && payments'[p].currency == payments[p].currency
    requires forall p :: p in payments ==> p in b.created && p in b'.created && b'.created[p] == b.created[p]
    requires forall p :: p in payments' && p !in payments ==>
      PaymentOk(payments'[p]) && CreatedEventOf(b', p, payments'[p])
    requires EventOk(payments', b'.created, id, b'.events[id])
    ensures HistoryOk(payments', b')
  {
    forall p | p in payments' ensures PaymentOk(payments'[p]) && CreatedEventOf(b', p, payments'[p]) {
      if p in payments { assert PaymentOk(payments[p]) && CreatedEventOf(b, p, payments[p]); }
    }
    forall k | k in b'.events ensures EventOk(payments', b'.created, k, b'.events[k]) {
      if k != id { assert EventOk(payments, b.created, k, b.events[k]); }
    }
  }

  lemma InsertHistory(s: State, client: nat, id: nat, event: nat, p: Payment, outcome: Outcome)
    requires HistoryOk(s.api.payments, s.box) && PaymentOk(p) && id !in s.api.payments && event !in s.box.events
    ensures var s' := InsertPayment(s, client, id, event, p, outcome); HistoryOk(s'.api.payments, s'.box)
  {
    var s' := InsertPayment(s, client, id, event, p, outcome);
    if id in s'.api.payments {
      assert CreatedEventOf(s'.box, id, p);
      forall q | q in s.api.payments ensures q in s.box.created {
        assert CreatedEventOf(s.box, q, s.api.payments[q]);
      }
      EventInserted(s.api.payments, s'.api.payments, s.box, s'.box, event);
    }
  }

  lemma CreateHistory(s: State, client: nat, id: nat, event: nat, raw: Rules.CreateRequest, rawKey: string,
        outcome: Outcome)
    requires HistoryOk(s.api.payments, s.box) && IsInt64(raw.amount) && id !in s.api.payments && event !in s.box.events
    ensures var s' := CreatePayment(s, client, id, event, raw, rawKey, outcome); HistoryOk(s'.api.payments, s'.box)
  {
    var r, key := Rules.Normalise(raw), Trim(rawKey);
    if Creatable(r, key) { InsertHistory(s, client, id, event, NewPayment(r, key), outcome); }
  }

  lemma CasHistory(s: State, client: nat, id: nat, previous: PaymentStatus, target: PaymentStatus, event: nat,
        outcome: Outcome)
    requires HistoryOk(s.api.payments, s.box) && event !in s.box.events
    ensures var s' := CompareAndSet(s, client, id, previous, target, event, outcome); HistoryOk(s'.api.payments, s'.box)
  {
    var s' := CompareAndSet(s, client, id, previous, target, event, outcome);
    if s'.box != s.box {
      assert CreatedEventOf(s.box, id, s.api.payments[id]);
      forall p | p in s.api.payments ensures p in s.box.created {
        assert CreatedEventOf(s.box, p, s.api.payments[p]);
      }
      EventInserted(s.api.payments, s'.api.payments, s.box, s'.box, event);
    }
  }

  lemma ClientHistory(s: State, c: nat, call: ApiCall)
    requires HistoryOk(s.api.payments, s.box) && ClientEnabled(s, c, call)
    ensures var s' := ClientStep(s, c, call); HistoryOk(s'.api.payments, s'.box)
  {
    match call
    case Insert(id, event, request, key, outcome) => CreateHistory(s, c, id, event, request, key, outcome);
    case Swap(event, outcome) =>
      var u := s.api.clients[c];
      CasHistory(s, c, u.payment, u.previous, u.target, event, outcome);
    case _ =>
  }

  /** Only the API changes the payments, the history or the created index. */
  lemma HistoryFrame(cfg: Config, s: State, l: Label)
    requires Enabled(cfg, s, l) && !l.Client?
    ensures var s' := Apply(cfg, s, l);
      s'.api == s.api && s'.box.events == s.box.events && s'.box.created == s.box.created
  {
    match l
    case Publish(p, call) => PublisherKeys(cfg, s, p, call);
    case Consume(k, step) => ConsumerFrame(cfg, s, k, step);
    case _ =>
  }

  lemma ConsumerFrame(cfg: Config, s: State, k: nat, call: ConsumerCall)
    requires ConsumerEnabled(s, k, call)
    ensures var s' := ConsumerStep(cfg, s, k, call);
      s'.api == s.api && s'.box == s.box && s'.audit == s.audit && s'.now == s.now
  {
  }

  lemma StepHistory(cfg: Config, s: State, l: Label)
    requires HistoryOk(s.api.payments, s.box)
    ensures var s' := Step(cfg, s, l); HistoryOk(s'.api.payments, s'.box)
  {
    if Enabled(cfg, s, l) {
      if l.Client? { ClientHistory(s, l.client, l.request); } else { HistoryFrame(cfg, s, l); }
    }
  }

  // ----- messages of the history

  /** The message carries exactly the event's id, type, aggregate key and payload. */
  predicate Carries(m: Message, topic: string, id: nat, e: Event) {
    && m.topic == topic && m.key == e.aggregateId && m.value == e.payload
    && Lookup(m.headers, EVENT_ID) == Uuid(id) && Lookup(m.headers, EVENT_TYPE) == e.eventType
  }

  predicate Genuine(topic: string, events: map<nat, Event>, m: Message) {
    var t := Lookup(m.headers, EVENT_ID);
    t.Uuid? && t.id in events && Carries(m, topic, t.id, events[t.id])
  }

  function EventId(m: Message): (id: nat) {
    match Lookup(m.headers, EVENT_ID)
    case Uuid(id) => id
    case Str(_) => 0
  }

  function Source(r: Record): (m: Message) { Message(r.sourceTopic, r.key, r.value, r.headers) }

  /** What the topic holds: messages of the history, and messages the ledger takes for no movement. */
  predicate Sound(topic: string, events: map<nat, Event>, m: Message) {
    m.topic == topic && (Genuine(topic, events, m) || MovementOf(m) == None)
  }

  /** A dead-letter record preserves such a message and names its event. */
  predicate SoundRecord(topic: string, events: map<nat, Event>, r: Record) {
    && Sound(topic, events, Source(r))
    && r.schemaVersion == SCHEMA_VERSION && r.eventId == Lookup(r.headers, EVENT_ID)
  }

  lemma WrittenIsGenuine(topic: string, events: map<nat, Event>, c: Claim, trace: seq<Header>)
    requires c.id in events && c.event == events[c.id]
    ensures Genuine(topic, events, EventMessage(topic, c, trace)) && EventId(EventMessage(topic, c, trace)) == c.id
  {
  }

  /** A replayed message is read as the original was, and carries what it carried. */
  lemma ReplayReadsAlike(r: Record, at: Text, audit: nat)
    ensures MovementOf(ReplayMessage(r, r.sourceTopic, at, audit)) == MovementOf(Source(r))
    ensures forall topic, id, e :: Carries(ReplayMessage(r, r.sourceTopic, at, audit), topic, id, e) <==>
      Carries(Source(r), topic, id, e)
  {
    var c := Cycle(0, 0, "", 0, 0, at, audit);
    CyclesRoundTrip(Source(r), [c]);
    CyclesReadAlike(Source(r), [c]);
    assert [c][..0] == [];
    assert Cycles(Source(r), [c]) == OneCycle(Source(r), c) == ReplayMessage(r, r.sourceTopic, at, audit);
  }

  lemma ReplayedIsSound(topic: string, events: map<nat, Event>, r: Record, at: Text, audit: nat)
    requires SoundRecord(topic, events, r)
    ensures Sound(topic, events, ReplayMessage(r, topic, at, audit))
  {
    ReplayReadsAlike(r, at, audit);
  }

  lemma BuriedIsSound(topic: string, events: map<nat, Event>, m: Message, partition: nat, offset: nat, cause: string,
        attempts: int, failedAt: int)
    requires Sound(topic, events, m)
    ensures var r := RecordOf(m, partition, offset, cause, attempts, failedAt);
      SoundRecord(topic, events, r) && Keeps(r, m, partition, offset)
  {
    RecordKeeps(m, partition, offset, cause, attempts, failedAt);
    assert Source(RecordOf(m, partition, offset, cause, attempts, failedAt)) == m;
  }

  // ----- what the ledger makes of them

  function RequestOf(e: Event): (request: Ledger.Request)
    requires e.payload.CreatedBody?
  {
    Ledger.Request(e.payload.paymentId, e.payload.amount, e.payload.currency)
  }

  lemma LedgerAccepts(payments: map<nat, Payment>, created: map<nat, nat>, id: nat, e: Event)
    requires EventOk(payments, created, id, e) && IsCreated(e) && PaymentOk(payments[e.aggregateId.id])
    ensures e.payload.CreatedBody? && Ledger.ValidMovement(RequestOf(e))
    ensures Acceptable(Uuid(id), RequestOf(e)) == Some((id, RequestOf(e)))
  {
    NormalCurrencyStable(e.payload.currency);
    assert Ledger.Normalise(RequestOf(e)) == RequestOf(e);
  }

  lemma ReadByHeaders(m: Message, id: nat)
    requires Lookup(m.headers, EVENT_ID) == Uuid(id)
    ensures Lookup(m.headers, EVENT_TYPE) != PAYMENT_CREATED ==> Read(m) == Ignored
    ensures Lookup(m.headers, EVENT_TYPE) == PAYMENT_CREATED && m.value.CreatedBody? ==>
      Read(m) == ToLedger(Uuid(id), Ledger.Request(m.value.paymentId, m.value.amount, m.value.currency))
  {
  }

  /** The consumer hands every created event to the ledger under its own id and amount, and the ledger
      accepts it; it ignores every status event. */
  lemma ReadGenuine(topic: string, payments: map<nat, Payment>, b: Box, m: Message)
    requires HistoryOk(payments, b) && Genuine(topic, b.events, m)
    ensures IsCreated(b.events[EventId(m)]) ==>
      var id := EventId(m); var e := b.events[id];
      e.payload.CreatedBody? && Read(m) == ToLedger(Uuid(id), RequestOf(e)) && Ledger.ValidMovement(RequestOf(e)) &&
      MovementOf(m) == Some((id, RequestOf(e)))
    ensures !IsCreated(b.events[EventId(m)]) ==> Read(m) == Ignored && MovementOf(m) == None
  {
    var id := EventId(m);
    var e := b.events[id];
    assert EventOk(payments, b.created, id, e);
    ReadByHeaders(m, id);
    if IsCreated(e) {
      assert CreatedEventOf(b, e.aggregateId.id, payments[e.aggregateId.id]);
      LedgerAccepts(payments, b.created, id, e);
    }
  }
}
