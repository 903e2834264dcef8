/** No loss: in every reachable state every payment's created event is still in the outbox, in flight on
    the topic, in a dead letter, or in the ledger. */
module Delivery {
  import opened Common
  import opened Messages
  import opened DeadLetter
  import opened Wire
  import opened System
  import opened History
  import opened OutboxProtocol
  import Ledger
  import Rules = PaymentRules

  // ----- where an event can be

  /** Its outbox row exists and is not yet published. */
  predicate Unpublished(b: Box, id: nat) { id in b.rows && b.rows[id].status != Published }

  ghost predicate CopyAt(topic: string, bus: Bus, k: nat, i: nat, id: nat, e: Event) {
    k < |bus.partitions| && i < |bus.partitions[k].log| && Carries(bus.partitions[k].log[i], topic, id, e)
  }

  /** A copy of the event, unchanged, at an offset the consumer has not committed. */
  ghost predicate UncommittedCopy(topic: string, bus: Bus, id: nat, e: Event) {
    exists k: nat, i: nat :: CopyAt(topic, bus, k, i, id, e) && bus.partitions[k].committed <= i
  }

  /** A dead-letter record that preserves the event unchanged. */
  ghost predicate DeadLettered(topic: string, bus: Bus, id: nat, e: Event) {
    exists j :: 0 <= j < |bus.deadLetters| && bus.deadLetters[j].eventId == Uuid(id) &&
      Carries(Source(bus.deadLetters[j]), topic, id, e)
  }

  ghost predicate PostedIn(ps: seq<Posting>, event: nat) {
    exists j :: 0 <= j < |ps| && ps[j].event == event
  }

  ghost predicate Recorded(b: Books, id: nat) { PostedIn(b.postings, id) }

  ghost predicate Handed(topic: string, bus: Bus, b: Books, id: nat, e: Event) {
    DeadLettered(topic, bus, id, e) || Recorded(b, id)
  }

  ghost predicate Delivered(topic: string, bus: Bus, b: Books, id: nat, e: Event) {
    UncommittedCopy(topic, bus, id, e) || Handed(topic, bus, b, id, e)
  }

  // ----- what became of a message

  /** The ledger's history has a posting of that movement for the event. */
  ghost predicate Posted(b: Books, event: nat, request: Ledger.Request) {
    exists j :: 0 <= j < |b.postings| && b.postings[j].event == event && b.postings[j].request == request
  }

  /** What the message orders is posted. */
  ghost predicate OrderPosted(b: Books, m: Message) {
    exists event, r :: Orders(m, event, r) && Posted(b, event, r)
  }

  ghost predicate BuriedAt(bus: Bus, m: Message, k: nat, i: nat) {
    exists j :: 0 <= j < |bus.deadLetters| && Keeps(bus.deadLetters[j], m, k, i)
  }

  /** The message at offset i of partition k is done with: it is none of the ledger's business, what it orders is
      posted,
      or a dead letter keeps it with its place. */
  ghost predicate Disposed(bus: Bus, b: Books, m: Message, k: nat, i: nat) {
    OtherEvent(m) || OrderPosted(b, m) || BuriedAt(bus, m, k, i)
  }

  /** The offset is committed, or the consumer is about to commit it. */
  predicate Passed(p: Partition, i: nat) {
    i < |p.log| && (i < p.committed || (i == p.committed && p.consumer == Settled))
  }

  ghost predicate AllDisposed(bus: Bus, b: Books) {
    forall k: nat, i: nat :: k < |bus.partitions| && Passed(bus.partitions[k], i) ==>
      Disposed(bus, b, bus.partitions[k].log[i], k, i)
  }

  // ----- invariants

  ghost predicate PartitionOk(topic: string, events: map<nat, Event>, p: Partition) {
    && p.committed <= |p.log|
    && (p.consumer != Idle ==> p.committed < |p.log|)
    && (forall i :: 0 <= i < |p.log| ==> Sound(topic, events, p.log[i]))
  }

  ghost predicate BusOk(topic: string, events: map<nat, Event>, bus: Bus) {
    && (forall k :: 0 <= k < |bus.partitions| ==> PartitionOk(topic, events, bus.partitions[k]))
    && (forall j :: 0 <= j < |bus.deadLetters| ==> SoundRecord(topic, events, bus.deadLetters[j]))
  }

  ghost predicate OperatorsOk(topic: string, events: map<nat, Event>, a: Audit) {
    forall o :: o in a.operators ==> SoundRecord(topic, events, a.operators[o].record)
  }

  function Flatten(ps: seq<Posting>): (entries: seq<Ledger.Entry>) {
    if ps == [] then [] else Flatten(ps[..|ps| - 1]) + EntriesOf(ps[|ps| - 1])
  }

  ghost predicate PostingOk(events: map<nat, Event>, p: Posting) {
    p.event in events && IsCreated(events[p.event]) && events[p.event].payload.CreatedBody? &&
      p.request == RequestOf(events[p.event])
  }

  /** The entries are those of the postings, in order, and a dedup row has its posting. */
  ghost predicate BooksOk(events: map<nat, Event>, b: Books) {
    && b.entries == Flatten(b.postings)
    && (forall j :: 0 <= j < |b.postings| ==> PostingOk(events, b.postings[j]))
    && (forall id :: id in b.consumed ==> Recorded(b, id))
  }

  ghost predicate WroteOk(topic: string, events: map<nat, Event>, bus: Bus, b: Books, p: Publisher) {
    p.queue != [] && p.wrote == Some(true) && p.queue[0].id in events && IsCreated(events[p.queue[0].id]) ==>
      Delivered(topic, bus, b, p.queue[0].id, events[p.queue[0].id])
  }

  ghost predicate NotLost(topic: string, s: State, id: nat)
    requires id in s.box.events
  {
    Unpublished(s.box, id) || Delivered(topic, s.bus, s.books, id, s.box.events[id])
  }

  ghost predicate ContentOk(topic: string, s: State) {
    && HistoryOk(s.api.payments, s.box)
    && Owned(s.box)
    && BusOk(topic, s.box.events, s.bus)
    && OperatorsOk(topic, s.box.events, s.audit)
    && BooksOk(s.box.events, s.books)
  }

  ghost predicate AllNotLost(topic: string, s: State) {
    forall id :: id in s.box.events && IsCreated(s.box.events[id]) ==> NotLost(topic, s, id)
  }

  ghost predicate FlowOk(topic: string, s: State) {
    && AllDisposed(s.bus, s.books)
    && (forall p :: p in s.box.publishers ==> WroteOk(topic, s.box.events, s.bus, s.books, s.box.publishers[p]))
    && AllNotLost(topic, s)
  }

  ghost predicate Inv(topic: string, s: State) { ContentOk(topic, s) && FlowOk(topic, s) }

  // ----- contents: every movement on the topic, in dead letters and in the ledger comes from the history

  ghost predicate Extends(events: map<nat, Event>, events': map<nat, Event>) {
    forall id :: id in events ==> id in events' && events'[id] == events[id]
  }

  lemma GenuineExtends(topic: string, events: map<nat, Event>, events': map<nat, Event>, s: State)
    requires Extends(events, events')
    requires BusOk(topic, events, s.bus) && OperatorsOk(topic, events, s.audit) && BooksOk(events, s.books)
    ensures BusOk(topic, events', s.bus) && OperatorsOk(topic, events', s.audit) && BooksOk(events', s.books)
  {
  }

  lemma AppendBusOk(topic: string, events: map<nat, Event>, bus: Bus, k: nat, m: Message, copies: nat)
    requires BusOk(topic, events, bus) && k < |bus.partitions| && Sound(topic, events, m)
    ensures BusOk(topic, events, AppendTo(bus, k, m, copies))
  {
  }

  lemma HeldIsSound(topic: string, events: map<nat, Event>, bus: Bus, k: nat)
    requires BusOk(topic, events, bus) && Current(bus, k)
    ensures Sound(topic, events, Held(bus, k))
  {
  }

  /** The message carries that created event of the history. */
  ghost predicate CopyOfCreated(topic: string, events: map<nat, Event>, m: Message, id: nat) {
    id in events && IsCreated(events[id]) && Carries(m, topic, id, events[id])
  }

  lemma SoundMovement(topic: string, s: State, m: Message)
    requires HistoryOk(s.api.payments, s.box) && Sound(topic, s.box.events, m)
    ensures MovementOf(m).Some? ==>
      var (id, request) := MovementOf(m).value; var events := s.box.events;
      CopyOfCreated(topic, events, m, id) && events[id].payload.CreatedBody? && request == RequestOf(events[id])
    ensures forall id :: CopyOfCreated(topic, s.box.events, m, id) ==>
      MovementOf(m).Some? && MovementOf(m).value.0 == id
  {
    if Genuine(topic, s.box.events, m) { ReadGenuine(topic, s.api.payments, s.box, m); }
    forall id | CopyOfCreated(topic, s.box.events, m, id)
      ensures MovementOf(m).Some? && MovementOf(m).value.0 == id
    {
      assert Genuine(topic, s.box.events, m);
    }
  }

  /** What the consumer would post for the message it holds, whoever wrote it: a created event of the history, under its
      own id and with its own request; and every copy of a created event is posted so. */
  lemma HeldMovementOk(topic: string, s: State, k: nat)
    requires ContentOk(topic, s) && Current(s.bus, k)
    ensures HeldMovement(s.bus, k).Some? ==>
      var (id, request) := HeldMovement(s.bus, k).value; var events := s.box.events;
      && CopyOfCreated(topic, events, Held(s.bus, k), id)
      && events[id].payload.CreatedBody? && request == RequestOf(events[id])
    ensures forall id :: CopyOfCreated(topic, s.box.events, Held(s.bus, k), id) ==>
      HeldMovement(s.bus, k).Some? && HeldMovement(s.bus, k).value.0 == id
  {
    HeldIsSound(topic, s.box.events, s.bus, k);
    SoundMovement(topic, s, Held(s.bus, k));
  }

  lemma RecordedGrows(b: Books, b': Books, id: nat)
    requires b.postings <= b'.postings && Recorded(b, id)
    ensures Recorded(b', id)
  {
  }

  lemma PostBooksOk(events: map<nat, Event>, b: Books, p: Posting, now: int)
    requires BooksOk(events, b) && PostingOk(events, p)
    ensures BooksOk(events, PostOnce(b, p, now)) && Recorded(PostOnce(b, p, now), p.event) &&
      b.postings <= PostOnce(b, p, now).postings
  {
    var b' := PostOnce(b, p, now);
    if p.event !in b.consumed {
      assert b'.postings[..|b'.postings| - 1] == b.postings;
      assert b'.postings[|b.postings|].event == p.event;
      forall id | id in b'.consumed ensures Recorded(b', id) {
        if id in b.consumed { RecordedGrows(b, b', id); }
      }
    }
  }

  // ----- what each actor leaves alone

  predicate SameBackend(s: State, s': State)
  {
    s'.bus == s.bus && s'.books == s.books && s'.audit == s.audit && s'.now == s.now
  }

  lemma CreateFrame(s: State, c: nat, id: nat, event: nat, raw: Rules.CreateRequest, rawKey: string, outcome: Outcome)
    ensures SameBackend(s, CreatePayment(s, c, id, event, raw, rawKey, outcome))
  {
  }

  lemma ClientFrame(s: State, c: nat, call: ApiCall)
    requires ClientEnabled(s, c, call)
    ensures SameBackend(s, ClientStep(s, c, call))
  {
    if call.Insert? { CreateFrame(s, c, call.id, call.event, call.request, call.key, call.outcome); }
  }

  lemma PublisherFrame(cfg: Config, s: State, p: nat, call: PublisherCall)
    requires PublisherEnabled(s, p, call)
    ensures var s' := PublisherStep(cfg, s, p, call);
      s'.books == s.books && s'.audit == s.audit && s'.api == s.api && s'.now == s.now
    ensures !call.Write? ==> PublisherStep(cfg, s, p, call).bus == s.bus
  {
  }

  lemma OperatorFrame(cfg: Config, s: State, o: nat, call: OperatorCall)
    requires OperatorEnabled(s, o, call)
    ensures var s' := OperatorStep(cfg, s, o, call);
      s'.books == s.books && s'.box == s.box && s'.api == s.api && s'.now == s.now
    ensures !call.Republish? ==> OperatorStep(cfg, s, o, call).bus == s.bus
  {
  }

  lemma PurgeFrame(s: State, batch: PurgeCall)
    ensures var s' := PurgeStep(s, batch);
      s'.bus == s.bus && s'.audit.operators == s.audit.operators && s'.books.postings == s.books.postings &&
      s'.books.entries == s.books.entries && s'.box.events == s.box.events && s'.box.publishers == s.box.publishers &&
      forall id :: id in s'.books.consumed ==> id in s.books.consumed
  {
  }

  // ----- contents, actor by actor

  /** Consumer k moved to local state c, by a committed ledger transaction or because the held message is no
      created event if it settled, and nothing else of the bus changed. */
  predicate Moved(s: State, bus: Bus, k: nat, call: ConsumerCall, c: Consumer) {
    && k < |s.bus.partitions| && bus == SetConsumer(s.bus, k, c)
    && (c != Idle ==> Current(s.bus, k))
    && (c == Settled ==>
        (call.Post? && call.outcome.Acked()) || (call.Decide? && Current(s.bus, k) && Read(Held(s.bus, k)) == Ignored))
  }

  lemma MovedTo(s: State, bus: Bus, k: nat, call: ConsumerCall, c: Consumer)
    requires Moved(s, bus, k, call, c)
    ensures k < |bus.partitions| && bus.partitions[k].consumer == c
  {
  }

  lemma CallMoves(cfg: Config, s: State, k: nat, call: ConsumerCall, next: Consumer, outcome: Outcome)
    requires Handles(s.bus, k) && (next == Settled ==> call.Post? && call.outcome == outcome)
    ensures exists c :: Moved(s, AfterCall(cfg, s, k, next, outcome), k, call, c)
  {
    var c := if outcome.Acked() then next else AfterFailure(s.bus.partitions[k].consumer, cfg.maxAttempts);
    assert Moved(s, AfterCall(cfg, s, k, next, outcome), k, call, c);
  }

  /** The consumer's steps other than burying and committing touch its own local state only. */
  lemma ConsumerMoves(cfg: Config, s: State, k: nat, call: ConsumerCall)
    requires ConsumerEnabled(s, k, call) && !call.Bury? && !call.Commit?
    ensures exists c :: Moved(s, ConsumerStep(cfg, s, k, call).bus, k, call, c)
  {
    match call
    case Fetch => assert Moved(s, ConsumerStep(cfg, s, k, call).bus, k, call, Handling(1, Start));
    case Decide =>
      DecideLocal(cfg, s, k);
      assert Moved(s, ConsumerStep(cfg, s, k, call).bus, k, call,
        DecideLocally(cfg, s.bus.partitions[k].consumer, Held(s.bus, k)));
    case EnsureCash(id, outcome) =>
      var account := CashLocal(cfg, s, k, id, outcome);
      CallMoves(cfg, s, k, call, s.bus.partitions[k].consumer.(stage := CashReady(account)), outcome);
    case EnsurePayable(id, outcome) =>
      var account := PayableLocal(cfg, s, k, id, outcome);
      CallMoves(cfg, s, k, call,
        s.bus.partitions[k].consumer.(stage := BothReady(s.bus.partitions[k].consumer.stage.cash, account)), outcome);
    case Post(t, d, e, outcome) =>
      PostLocal(cfg, s, k, t, d, e, outcome);
      CallMoves(cfg, s, k, call, Settled, outcome);
    case ConsumerCrash => assert Moved(s, ConsumerStep(cfg, s, k, call).bus, k, call, Idle);
  }

  lemma ConsumerLocal(cfg: Config, s: State, k: nat, call: ConsumerCall)
    requires ConsumerEnabled(s, k, call) && !call.Bury? && !call.Commit?
    ensures k < |s.bus.partitions| && k < |ConsumerStep(cfg, s, k, call).bus.partitions|
    ensures Moved(s, ConsumerStep(cfg, s, k, call).bus, k, call,
      ConsumerStep(cfg, s, k, call).bus.partitions[k].consumer)
  {
    ConsumerMoves(cfg, s, k, call);
    var c :| Moved(s, ConsumerStep(cfg, s, k, call).bus, k, call, c);
    MovedTo(s, ConsumerStep(cfg, s, k, call).bus, k, call, c);
  }

  lemma DecideLocal(cfg: Config, s: State, k: nat)
    requires ConsumerEnabled(s, k, Decide)
    ensures ConsumerStep(cfg, s, k, Decide).bus ==
      SetConsumer(s.bus, k, DecideLocally(cfg, s.bus.partitions[k].consumer, Held(s.bus, k)))
  {
  }

  lemma CashLocal(cfg: Config, s: State, k: nat, id: nat, outcome: Outcome) returns (account: nat)
    requires ConsumerEnabled(s, k, EnsureCash(id, outcome))
    ensures ConsumerStep(cfg, s, k, EnsureCash(id, outcome)).bus ==
            AfterCall(cfg, s, k, s.bus.partitions[k].consumer.(stage := CashReady(account)), outcome)
  {
    account := EnsureAccount(s.books, Ledger.CASH, HeldMovement(s.bus, k).value.1.currency, Ledger.Debit, id).1;
  }

  lemma PayableLocal(cfg: Config, s: State, k: nat, id: nat, outcome: Outcome) returns (account: nat)
    requires ConsumerEnabled(s, k, EnsurePayable(id, outcome))
    ensures ConsumerStep(cfg, s, k, EnsurePayable(id, outcome)).bus ==
            AfterCall(cfg, s, k,
              s.bus.partitions[k].consumer.(stage := BothReady(s.bus.partitions[k].consumer.stage.cash, account)),
              outcome)
  {
    account := EnsureAccount(s.books, Ledger.PAYABLE, HeldMovement(s.bus, k).value.1.currency, Ledger.Credit, id).1;
  }

  lemma PostLocal(cfg: Config, s: State, k: nat, transaction: nat, debitId: nat, creditId: nat, outcome: Outcome)
    requires ConsumerEnabled(s, k, Post(transaction, debitId, creditId, outcome))
    ensures ConsumerStep(cfg, s, k, Post(transaction, debitId, creditId, outcome)).bus ==
      AfterCall(cfg, s, k, Settled, outcome)
  {
  }

  lemma PublisherBusOk(cfg: Config, s: State, p: nat, call: PublisherCall)
    requires ContentOk(cfg.topic, s) && PublisherEnabled(s, p, call)
    ensures BusOk(cfg.topic, s.box.events, PublisherStep(cfg, s, p, call).bus)
  {
    PublisherFrame(cfg, s, p, call);
    if call.Write? {
      var q := s.box.publishers[p];
      assert QueueOk(s.box, q);
      assert ClaimOk(s.box, q, 0);
      WrittenIsGenuine(cfg.topic, s.box.events, q.queue[0], call.trace);
      AppendBusOk(cfg.topic, s.box.events, s.bus, call.to, EventMessage(cfg.topic, q.queue[0], call.trace),
        call.copies);
    }
  }

  lemma ConsumerBusOk(cfg: Config, s: State, k: nat, call: ConsumerCall)
    requires ContentOk(cfg.topic, s) && ConsumerEnabled(s, k, call)
    ensures BusOk(cfg.topic, s.box.events, ConsumerStep(cfg, s, k, call).bus)
  {
  }

  lemma OperatorBusOk(cfg: Config, s: State, o: nat, call: OperatorCall)
    requires ContentOk(cfg.topic, s) && OperatorEnabled(s, o, call)
    ensures BusOk(cfg.topic, s.box.events, OperatorStep(cfg, s, o, call).bus)
  {
    OperatorFrame(cfg, s, o, call);
    if call.Republish? {
      var op := s.audit.operators[o];
      ReplayedIsSound(cfg.topic, s.box.events, op.record, call.at, op.audit);
      AppendBusOk(cfg.topic, s.box.events, s.bus, call.to, ReplayMessage(op.record, cfg.topic, call.at, op.audit),
        call.copies);
    }
  }

  lemma OperatorRecordsOk(cfg: Config, s: State, o: nat, call: OperatorCall)
    requires ContentOk(cfg.topic, s) && OperatorEnabled(s, o, call)
    ensures OperatorsOk(cfg.topic, s.box.events, OperatorStep(cfg, s, o, call).audit)
  {
  }

  lemma EnsureQuiet(b: Books, name: string, currency: string, normal: Ledger.Direction, id: nat)
    ensures var b' := EnsureAccount(b, name, currency, normal, id).0;
      b'.postings == b.postings && b'.entries == b.entries && b'.consumed == b.consumed && b'.purged == b.purged &&
        b'.stamps == b.stamps
  {
  }

  lemma ConsumerBooksQuiet(cfg: Config, s: State, k: nat, call: ConsumerCall)
    requires ConsumerEnabled(s, k, call) && !call.Post?
    ensures var b' := ConsumerStep(cfg, s, k, call).books;
      b'.postings == s.books.postings && b'.entries == s.books.entries && b'.consumed == s.books.consumed &&
      b'.purged == s.books.purged && b'.stamps == s.books.stamps
    ensures !call.EnsureCash? && !call.EnsurePayable? ==> ConsumerStep(cfg, s, k, call).books == s.books
  {
    if call.EnsureCash? {
      EnsureQuiet(s.books, Ledger.CASH, HeldMovement(s.bus, k).value.1.currency, Ledger.Debit, call.id);
    } else if call.EnsurePayable? {
      EnsureQuiet(s.books, Ledger.PAYABLE, HeldMovement(s.bus, k).value.1.currency, Ledger.Credit, call.id);
    }
  }

  /** The transaction keeps the books, and the held movement is posted then, by this transaction or before. */
  lemma HeldPostingOk(topic: string, s: State, k: nat, transaction: nat, debitId: nat, creditId: nat)
    requires ContentOk(topic, s)
    requires Handles(s.bus, k) && s.bus.partitions[k].consumer.stage.BothReady? && HeldMovement(s.bus, k).Some?
    ensures var b' := PostOnce(s.books, HeldPosting(s, k, transaction, debitId, creditId), s.now);
      var movement := HeldMovement(s.bus, k).value;
      BooksOk(s.box.events, b') && s.books.postings <= b'.postings && Posted(b', movement.0, movement.1)
  {
    var p := HeldPosting(s, k, transaction, debitId, creditId);
    HeldMovementOk(topic, s, k);
    assert p.event == HeldMovement(s.bus, k).value.0 && p.request == HeldMovement(s.bus, k).value.1;
    PostBooksOk(s.box.events, s.books, p, s.now);
    RecordedIsPosted(s.box.events, PostOnce(s.books, p, s.now), p.event);
  }

  lemma ConsumerBooksOk(cfg: Config, s: State, k: nat, call: ConsumerCall)
    requires ContentOk(cfg.topic, s) && ConsumerEnabled(s, k, call)
    ensures var b' := ConsumerStep(cfg, s, k, call).books; BooksOk(s.box.events, b') && s.books.postings <= b'.postings
    ensures call.Post? && call.outcome.Acked() ==> var movement := HeldMovement(s.bus, k).value;
      Posted(ConsumerStep(cfg, s, k, call).books, movement.0, movement.1)
  {
    if call.Post? {
      HeldPostingOk(cfg.topic, s, k, call.transaction, call.debitId, call.creditId);
    } else {
      ConsumerBooksQuiet(cfg, s, k, call);
      SameBooksOk(s.box.events, s.books, ConsumerStep(cfg, s, k, call).books);
    }
  }

  /** What is recorded under an event's id is that event's movement. */
  lemma RecordedIsPosted(events: map<nat, Event>, b: Books, id: nat)
    requires forall j :: 0 <= j < |b.postings| ==> PostingOk(events, b.postings[j])
    ensures Recorded(b, id) ==>
      id in events && IsCreated(events[id]) && events[id].payload.CreatedBody? && Posted(b, id, RequestOf(events[id]))
  {
    if Recorded(b, id) {
      var j :| 0 <= j < |b.postings| && b.postings[j].event == id;
      assert PostingOk(events, b.postings[j]);
    }
  }

  lemma SameBooksOk(events: map<nat, Event>, b: Books, b': Books)
    requires BooksOk(events, b) && b'.postings == b.postings && b'.entries == b.entries
    requires forall id :: id in b'.consumed ==> id in b.consumed
    ensures BooksOk(events, b')
  {
  }

  /** The parts of the contents that speak of the event history, before that history grows. */
  ghost predicate PartsOk(topic: string, events: map<nat, Event>, s: State) {
    BusOk(topic, events, s.bus) && OperatorsOk(topic, events, s.audit) && BooksOk(events, s.books)
  }

  lemma StepParts(cfg: Config, s: State, l: Label)
    requires ContentOk(cfg.topic, s) && Enabled(cfg, s, l)
    ensures PartsOk(cfg.topic, s.box.events, Apply(cfg, s, l))
    ensures s.books.postings <= Apply(cfg, s, l).books.postings
  {
    match l
    case Tick(_) =>
    case Client(c, request) => ClientFrame(s, c, request);
    case Publish(p, call) => PublisherFrame(cfg, s, p, call); PublisherBusOk(cfg, s, p, call);
    case Consume(k, step) =>
      ConsumerFrame(cfg, s, k, step);
      ConsumerBusOk(cfg, s, k, step);
      ConsumerBooksOk(cfg, s, k, step);
    case Operate(o, command) =>
      OperatorFrame(cfg, s, o, command);
      OperatorBusOk(cfg, s, o, command);
      OperatorRecordsOk(cfg, s, o, command);
    case Purge(_, batch) => PurgeFrame(s, batch); SameBooksOk(s.box.events, s.books, PurgeStep(s, batch).books);
    case Produce(to, m) => AppendBusOk(cfg.topic, s.box.events, s.bus, to, m, 1);
  }

  lemma StepContent(cfg: Config, s: State, l: Label)
    requires ContentOk(cfg.topic, s)
    ensures ContentOk(cfg.topic, Step(cfg, s, l))
  {
    if Enabled(cfg, s, l) {
      var s' := Apply(cfg, s, l);
      StepHistory(cfg, s, l);
      StepOwned(cfg, s, l);
      EventsGrow(cfg, s, l);
      StepParts(cfg, s, l);
      GenuineExtends(cfg.topic, s.box.events, s'.box.events, s');
    }
  }

  // ----- flow: what is delivered stays delivered

  /** Logs, dead letters and postings only grow, and an offset is passed only by a settled consumer. */
  ghost predicate Progress(bus: Bus, b: Books, bus': Bus, b': Books) {
    && |bus'.partitions| == |bus.partitions|
    && bus.deadLetters <= bus'.deadLetters
    && b.postings <= b'.postings
    && (forall k :: 0 <= k < |bus.partitions| ==> Advances(bus.partitions[k], bus'.partitions[k]))
  }

  predicate Advances(p: Partition, p': Partition) {
    && p.log <= p'.log
    && (p'.committed == p.committed ||
        (p'.committed == p.committed + 1 && p.committed < |p.log| && p.consumer == Settled))
  }

  lemma HandedStable(topic: string, bus: Bus, b: Books, bus': Bus, b': Books, id: nat, e: Event)
    requires bus.deadLetters <= bus'.deadLetters && b.postings <= b'.postings && Handed(topic, bus, b, id, e)
    ensures Handed(topic, bus', b', id, e)
  {
  }

  /** Done with is done with. */
  lemma DisposedStable(bus: Bus, b: Books, bus': Bus, b': Books, m: Message, k: nat, i: nat)
    requires bus.deadLetters <= bus'.deadLetters && b.postings <= b'.postings && Disposed(bus, b, m, k, i)
    ensures Disposed(bus', b', m, k, i)
  {
    if BuriedAt(bus, m, k, i) {
      var j :| 0 <= j < |bus.deadLetters| && Keeps(bus.deadLetters[j], m, k, i);
      assert bus'.deadLetters[j] == bus.deadLetters[j];
    } else if OrderPosted(b, m) {
      var event, r :| Orders(m, event, r) && Posted(b, event, r);
      PostedStable(b, b', event, r);
    }
  }

  lemma PostedStable(b: Books, b': Books, event: nat, request: Ledger.Request)
    requires b.postings <= b'.postings && Posted(b, event, request)
    ensures Posted(b', event, request)
  {
    var j :| 0 <= j < |b.postings| && b.postings[j].event == event && b.postings[j].request == request;
    assert b'.postings[j] == b.postings[j];
  }

  /** A copy of a created event that is done with was handed over. */
  lemma DisposedIsHanded(topic: string, s: State, m: Message, k: nat, i: nat, id: nat)
    requires HistoryOk(s.api.payments, s.box) && id in s.box.events && IsCreated(s.box.events[id])
    requires Carries(m, topic, id, s.box.events[id]) && Disposed(s.bus, s.books, m, k, i)
    ensures Handed(topic, s.bus, s.books, id, s.box.events[id])
  {
    assert Genuine(topic, s.box.events, m);
    ReadGenuine(topic, s.api.payments, s.box, m);
    ReadsAs(m);
    if BuriedAt(s.bus, m, k, i) {
      var j :| 0 <= j < |s.bus.deadLetters| && Keeps(s.bus.deadLetters[j], m, k, i);
      NamedIsLookup(m.headers, "event_id", s.bus.deadLetters[j].eventId);
      assert Source(s.bus.deadLetters[j]) == m;
    } else {
      var event, r :| Orders(m, event, r) && Posted(s.books, event, r);
      AsksFor(m, event, r);
    }
  }

  lemma DeliveredStable(topic: string, s: State, bus': Bus, b': Books, id: nat)
    requires Progress(s.bus, s.books, bus', b') && HistoryOk(s.api.payments, s.box) && AllDisposed(s.bus, s.books)
    requires id in s.box.events && IsCreated(s.box.events[id]) && Delivered(topic, s.bus, s.books, id, s.box.events[id])
    ensures Delivered(topic, bus', b', id, s.box.events[id])
  {
    var e := s.box.events[id];
    if UncommittedCopy(topic, s.bus, id, e) {
      var k: nat, i: nat :| CopyAt(topic, s.bus, k, i, id, e) && s.bus.partitions[k].committed <= i;
      assert Advances(s.bus.partitions[k], bus'.partitions[k]);
      if bus'.partitions[k].committed <= i {
        assert CopyAt(topic, bus', k, i, id, e);
      } else {
        assert Passed(s.bus.partitions[k], i);
        DisposedIsHanded(topic, s, s.bus.partitions[k].log[i], k, i, id);
        HandedStable(topic, s.bus, s.books, bus', b', id, e);
      }
    } else {
      HandedStable(topic, s.bus, s.books, bus', b', id, e);
    }
  }

  lemma PublisherAdvances(cfg: Config, s: State, p: nat, call: PublisherCall)
    requires PublisherEnabled(s, p, call)
    ensures Progress(s.bus, s.books, PublisherStep(cfg, s, p, call).bus, s.books)
  {
  }

  lemma OperatorAdvances(cfg: Config, s: State, o: nat, call: OperatorCall)
    requires OperatorEnabled(s, o, call)
    ensures Progress(s.bus, s.books, OperatorStep(cfg, s, o, call).bus, s.books)
  {
  }

  lemma ConsumerAdvances(cfg: Config, s: State, k: nat, call: ConsumerCall)
    requires ConsumerEnabled(s, k, call)
    ensures Progress(s.bus, s.books, ConsumerStep(cfg, s, k, call).bus, ConsumerStep(cfg, s, k, call).books)
  {
    if !call.Bury? && !call.Commit? { ConsumerLocal(cfg, s, k, call); }
    if !call.Post? { ConsumerBooksQuiet(cfg, s, k, call); }
  }

  lemma StepProgress(cfg: Config, s: State, l: Label)
    requires Enabled(cfg, s, l)
    ensures Progress(s.bus, s.books, Apply(cfg, s, l).bus, Apply(cfg, s, l).books)
  {
    match l
    case Tick(_) =>
    case Client(c, request) => ClientFrame(s, c, request);
    case Publish(p, call) => PublisherFrame(cfg, s, p, call); PublisherAdvances(cfg, s, p, call);
    case Consume(k, step) => ConsumerAdvances(cfg, s, k, step);
    case Operate(o, command) => OperatorFrame(cfg, s, o, command); OperatorAdvances(cfg, s, o, command);
    case Purge(_, batch) => PurgeFrame(s, batch);
    case Produce(_, _) =>
  }

  ghost predicate LogsGrow(bus: Bus, bus': Bus) {
    |bus'.partitions| == |bus.partitions| &&
    forall k :: 0 <= k < |bus.partitions| ==> bus.partitions[k].log <= bus'.partitions[k].log
  }

  lemma StepLogsGrow(cfg: Config, s: State, l: Label)
    requires Enabled(cfg, s, l)
    ensures LogsGrow(s.bus, Apply(cfg, s, l).bus)
  {
    StepProgress(cfg, s, l);
    var s' := Apply(cfg, s, l);
    forall k | 0 <= k < |s.bus.partitions| ensures s.bus.partitions[k].log <= s'.bus.partitions[k].log {
      assert Advances(s.bus.partitions[k], s'.bus.partitions[k]);
    }
  }

  /** A message appended to a log is at an uncommitted offset. */
  lemma AppendedInFlight(topic: string, bus: Bus, k: nat, m: Message, copies: nat, id: nat, e: Event)
    requires k < |bus.partitions| && copies >= 1 && bus.partitions[k].committed <= |bus.partitions[k].log|
    requires Carries(m, topic, id, e)
    ensures UncommittedCopy(topic, AppendTo(bus, k, m, copies), id, e)
  {
    assert CopyAt(topic, AppendTo(bus, k, m, copies), k, |bus.partitions[k].log|, id, e);
  }

  // ----- an offset is passed only over a message that is done with

  predicate SameProgress(p: Partition, p': Partition) {
    p.log <= p'.log && p'.committed == p.committed && p'.consumer == p.consumer
  }

  /** Whatever happens to other partitions, or on other logs, only partition k can pass an offset. */
  lemma OthersDisposed(topic: string, events: map<nat, Event>, bus: Bus, b: Books, bus': Bus, b': Books, k: nat)
    requires BusOk(topic, events, bus) && AllDisposed(bus, b) && |bus'.partitions| == |bus.partitions|
    requires bus.deadLetters <= bus'.deadLetters && b.postings <= b'.postings
    requires forall j :: 0 <= j < |bus.partitions| && j != k ==> SameProgress(bus.partitions[j], bus'.partitions[j])
    requires k < |bus.partitions| ==> forall i: nat :: Passed(bus'.partitions[k], i) ==>
      Disposed(bus', b', bus'.partitions[k].log[i], k, i)
    ensures AllDisposed(bus', b')
  {
    forall j: nat, i: nat | j < |bus'.partitions| && Passed(bus'.partitions[j], i)
      ensures Disposed(bus', b', bus'.partitions[j].log[i], j, i)
    {
      if j != k {
        assert SameProgress(bus.partitions[j], bus'.partitions[j]);
        assert PartitionOk(topic, events, bus.partitions[j]);
        assert Passed(bus.partitions[j], i);
        DisposedStable(bus, b, bus', b', bus.partitions[j].log[i], j, i);
      }
    }
  }

  lemma AppendDisposed(topic: string, events: map<nat, Event>, bus: Bus, b: Books, k: nat, m: Message, copies: nat)
    requires BusOk(topic, events, bus) && AllDisposed(bus, b) && k < |bus.partitions|
    ensures AllDisposed(AppendTo(bus, k, m, copies), b)
  {
    OthersDisposed(topic, events, bus, b, AppendTo(bus, k, m, copies), b, |bus.partitions|);
  }

  /** The consumer settles by ignoring a message, by a committed ledger transaction, or by an acknowledged dead
      letter. */
  lemma ConsumerSettles(cfg: Config, s: State, k: nat, call: ConsumerCall)
    requires ContentOk(cfg.topic, s) && ConsumerEnabled(s, k, call) && !call.Commit?
    ensures var s' := ConsumerStep(cfg, s, k, call);
      && k < |s'.bus.partitions| && s'.bus.partitions[k].log == s.bus.partitions[k].log
      && s'.bus.partitions[k].committed == s.bus.partitions[k].committed
      && (s'.bus.partitions[k].consumer == Settled ==>
            Current(s.bus, k) && Disposed(s'.bus, s'.books, Held(s.bus, k), k, s.bus.partitions[k].committed))
  {
    var s' := ConsumerStep(cfg, s, k, call);
    if call.Bury? {
      if call.acked {
        HeldIsSound(cfg.topic, s.box.events, s.bus, k);
        BuriedIsSound(cfg.topic, s.box.events, Held(s.bus, k), k, s.bus.partitions[k].committed, call.cause,
          s.bus.partitions[k].consumer.attempts, s.now);
        assert Keeps(s'.bus.deadLetters[|s.bus.deadLetters|], Held(s.bus, k), k, s.bus.partitions[k].committed);
      }
    } else {
      ConsumerLocal(cfg, s, k, call);
      if call.Post? {
        ConsumerBooksOk(cfg, s, k, call);
        OrderExactly(Held(s.bus, k));
      } else if call.Decide? {
        ReadsAs(Held(s.bus, k));
      }
    }
  }

  lemma ConsumerPasses(cfg: Config, s: State, k: nat, call: ConsumerCall)
    requires Inv(cfg.topic, s) && ConsumerEnabled(s, k, call)
    ensures var s' := ConsumerStep(cfg, s, k, call);
      k < |s'.bus.partitions| && forall i: nat :: Passed(s'.bus.partitions[k], i) ==>
        Disposed(s'.bus, s'.books, s'.bus.partitions[k].log[i], k, i)
  {
    var s' := ConsumerStep(cfg, s, k, call);
    ConsumerAdvances(cfg, s, k, call);
    assert Advances(s.bus.partitions[k], s'.bus.partitions[k]);
    if !call.Commit? { ConsumerSettles(cfg, s, k, call); }
    forall i: nat | Passed(s'.bus.partitions[k], i)
      ensures Disposed(s'.bus, s'.books, s'.bus.partitions[k].log[i], k, i)
    {
      if Passed(s.bus.partitions[k], i) {
        DisposedStable(s.bus, s.books, s'.bus, s'.books, s.bus.partitions[k].log[i], k, i);
      }
    }
  }

  lemma ConsumerDisposed(cfg: Config, s: State, k: nat, call: ConsumerCall)
    requires Inv(cfg.topic, s) && ConsumerEnabled(s, k, call)
    ensures var s' := ConsumerStep(cfg, s, k, call); AllDisposed(s'.bus, s'.books)
  {
    var s' := ConsumerStep(cfg, s, k, call);
    ConsumerPasses(cfg, s, k, call);
    ConsumerAdvances(cfg, s, k, call);
    if !call.Bury? && !call.Commit? { ConsumerLocal(cfg, s, k, call); }
    OthersDisposed(cfg.topic, s.box.events, s.bus, s.books, s'.bus, s'.books, k);
  }

  lemma StepDisposed(cfg: Config, s: State, l: Label)
    requires Inv(cfg.topic, s) && Enabled(cfg, s, l)
    ensures var s' := Apply(cfg, s, l); AllDisposed(s'.bus, s'.books)
  {
    match l
    case Tick(_) =>
    case Client(c, request) => ClientFrame(s, c, request);
    case Publish(p, call) =>
      PublisherFrame(cfg, s, p, call);
      if call.Write? {
        AppendDisposed(cfg.topic, s.box.events, s.bus, s.books, call.to,
          EventMessage(cfg.topic, s.box.publishers[p].queue[0], call.trace), call.copies);
      }
    case Consume(k, step) => ConsumerDisposed(cfg, s, k, step);
    case Operate(o, command) =>
      OperatorFrame(cfg, s, o, command);
      if command.Republish? {
        var op := s.audit.operators[o];
        AppendDisposed(cfg.topic, s.box.events, s.bus, s.books, command.to,
          ReplayMessage(op.record, cfg.topic, command.at, op.audit), command.copies);
      }
    case Purge(_, batch) =>
      PurgeFrame(s, batch);
      OthersDisposed(cfg.topic, s.box.events, s.bus, s.books, s.bus, PurgeStep(s, batch).books, |s.bus.partitions|);
    case Produce(to, m) => AppendDisposed(cfg.topic, s.box.events, s.bus, s.books, to, m, 1);
  }

  // ----- publishers that have written

  predicate KeptPublisher(b: Box, b': Box, l: Label, p: nat) {
    p in b'.publishers ==>
      || b'.publishers[p].wrote == None
      || (p in b.publishers && b'.publishers[p] == b.publishers[p])
      || (l.Publish? && l.publisher == p && l.call.Write? && p in b.publishers &&
          b'.publishers[p] == b.publishers[p].(wrote := Some(l.call.acked)))
  }

  /** A publisher's state after any step: fresh, unchanged, or having just written its head. */
  lemma PublisherKept(cfg: Config, s: State, l: Label, p: nat)
    requires Enabled(cfg, s, l)
    ensures KeptPublisher(s.box, Apply(cfg, s, l).box, l, p)
  {
    match l
    case Client(c, request) => InsertsAtMostOne(s, c, request);
    case _ =>
  }

  lemma JustWritten(cfg: Config, s: State, p: nat, call: PublisherCall)
    requires ContentOk(cfg.topic, s) && PublisherEnabled(s, p, call) && call.Write? && call.acked
    ensures var id := s.box.publishers[p].queue[0].id;
      id in s.box.events && UncommittedCopy(cfg.topic, PublisherStep(cfg, s, p, call).bus, id, s.box.events[id])
  {
    assert QueueOk(s.box, s.box.publishers[p]);
    assert ClaimOk(s.box, s.box.publishers[p], 0);
    var c := s.box.publishers[p].queue[0];
    var m := EventMessage(cfg.topic, c, call.trace);
    WrittenIsGenuine(cfg.topic, s.box.events, c, call.trace);
    assert PartitionOk(cfg.topic, s.box.events, s.bus.partitions[call.to]);
    AppendedInFlight(cfg.topic, s.bus, call.to, m, call.copies, c.id, s.box.events[c.id]);
  }

  lemma StepWrote(cfg: Config, s: State, l: Label, p: nat)
    requires Inv(cfg.topic, s) && Enabled(cfg, s, l) && p in Apply(cfg, s, l).box.publishers
    requires Apply(cfg, s, l).box.publishers[p].wrote == Some(true)
    ensures var s' := Apply(cfg, s, l); var q' := s'.box.publishers[p];
      q'.queue != [] && q'.queue[0].id in s.box.events && WroteOk(cfg.topic, s.box.events, s'.bus, s'.books, q')
  {
    var s' := Apply(cfg, s, l);
    PublisherKept(cfg, s, l, p);
    var q := s.box.publishers[p];
    assert QueueOk(s.box, q);
    assert ClaimOk(s.box, q, 0);
    if q == s'.box.publishers[p] {
      assert WroteOk(cfg.topic, s.box.events, s.bus, s.books, q);
      if IsCreated(s.box.events[q.queue[0].id]) {
        StepProgress(cfg, s, l);
        DeliveredStable(cfg.topic, s, s'.bus, s'.books, q.queue[0].id);
      }
    } else {
      JustWritten(cfg, s, p, l.call);
    }
  }

  // ----- unpublished rows

  lemma MarkPublishes(b: Box, publisher: nat, now: int, outcome: Outcome, id: nat)
    requires publisher in b.publishers && b.publishers[publisher].queue != [] && b.publishers[publisher].wrote.Some? &&
      Unpublished(b, id)
    ensures Unpublished(AfterMark(b, publisher, now, outcome), id) ||
      (b.publishers[publisher].wrote == Some(true) && b.publishers[publisher].queue[0].id == id)
  {
  }

  lemma ClaimUnpublished(b: Box, publisher: nat, limit: int, chosen: seq<nat>, outcome: Outcome, id: nat)
    requires CanClaim(b, limit, chosen) && Unpublished(b, id)
    ensures Unpublished(TakeBatch(b, publisher, limit, chosen, outcome), id)
  {
  }

  lemma PurgeSparesUnpublished(cfg: Config, s: State, cutoff: int, batch: PurgeCall, id: nat)
    requires PurgeEnabled(cfg, s, cutoff, batch) && Unpublished(s.box, id)
    ensures Unpublished(PurgeStep(s, batch).box, id)
  {
  }

  /** A row stops being unpublished only when its owner marks it after an acknowledged write. */
  lemma StaysUnpublished(cfg: Config, s: State, l: Label, id: nat)
    requires Enabled(cfg, s, l) && Unpublished(s.box, id) && id in s.box.events
    ensures Unpublished(Apply(cfg, s, l).box, id) ||
      (l.Publish? && l.call.Mark? && s.box.publishers[l.publisher].wrote == Some(true) &&
        s.box.publishers[l.publisher].queue[0].id == id)
  {
    match l
    case Client(c, request) => InsertsAtMostOne(s, c, request);
    case Publish(p, call) =>
      if call.ClaimPending? { ClaimUnpublished(s.box, p, call.limit, call.chosen, call.outcome, id); }
      if call.Mark? { MarkPublishes(s.box, p, s.now, call.outcome, id); }
    case Purge(cutoff, batch) => PurgeSparesUnpublished(cfg, s, cutoff, batch, id);
    case _ =>
  }

  lemma NewEventWaits(cfg: Config, s: State, l: Label, id: nat)
    requires Enabled(cfg, s, l) && id !in s.box.events && id in Apply(cfg, s, l).box.events
    ensures Unpublished(Apply(cfg, s, l).box, id)
  {
    match l
    case Client(c, request) => InsertsAtMostOne(s, c, request);
    case Publish(p, call) => PublisherKeys(cfg, s, p, call);
    case _ =>
  }

  lemma StepNotLost(cfg: Config, s: State, l: Label, id: nat)
    requires Inv(cfg.topic, s) && Enabled(cfg, s, l) && id in s.box.events && IsCreated(s.box.events[id])
    ensures var s' := Apply(cfg, s, l);
      Unpublished(s'.box, id) || Delivered(cfg.topic, s'.bus, s'.books, id, s.box.events[id])
  {
    var s' := Apply(cfg, s, l);
    assert NotLost(cfg.topic, s, id);
    if l.Publish? && l.publisher in s.box.publishers {
      assert WroteOk(cfg.topic, s.box.events, s.bus, s.books, s.box.publishers[l.publisher]);
    }
    if Unpublished(s.box, id) { StaysUnpublished(cfg, s, l, id); }
    if Delivered(cfg.topic, s.bus, s.books, id, s.box.events[id]) {
      StepProgress(cfg, s, l);
      DeliveredStable(cfg.topic, s, s'.bus, s'.books, id);
    }
  }

  lemma StepFlow(cfg: Config, s: State, l: Label)
    requires Inv(cfg.topic, s)
    ensures Inv(cfg.topic, Step(cfg, s, l))
  {
    if Enabled(cfg, s, l) {
      var s' := Apply(cfg, s, l);
      StepContent(cfg, s, l);
      EventsGrow(cfg, s, l);
      StepDisposed(cfg, s, l);
      forall p | p in s'.box.publishers
        ensures WroteOk(cfg.topic, s'.box.events, s'.bus, s'.books, s'.box.publishers[p])
      {
        if s'.box.publishers[p].wrote == Some(true) { StepWrote(cfg, s, l, p); }
      }
      forall id | id in s'.box.events && IsCreated(s'.box.events[id]) ensures NotLost(cfg.topic, s', id) {
        if id in s.box.events { StepNotLost(cfg, s, l, id); } else { NewEventWaits(cfg, s, l, id); }
      }
    }
  }

  lemma {:induction false} RunInv(cfg: Config, s: State, schedule: seq<Label>)
    requires Inv(cfg.topic, s)
    ensures Inv(cfg.topic, Run(cfg, s, schedule))
  {
    if schedule != [] {
      var n := |schedule| - 1;
      RunInv(cfg, s, schedule[..n]);
      StepFlow(cfg, Run(cfg, s, schedule[..n]), schedule[n]);
    }
  }

  lemma ReachedInv(cfg: Config, partitions: nat, schedule: seq<Label>)
    ensures Inv(cfg.topic, Reached(cfg, partitions, schedule))
  {
    RunInv(cfg, Init(partitions), schedule);
  }

  // ----- the theorem, in terms of what an observer sees

  /** Two adjacent ledger rows: the debit and the credit of the payment, with its amount and currency. */
  predicate MovementAt(entries: seq<Ledger.Entry>, k: nat, payment: nat, p: Payment) {
    && k + 1 < |entries|
    && entries[k].direction == Ledger.Debit && entries[k + 1].direction == Ledger.Credit
    && entries[k].transaction == entries[k + 1].transaction
    && forall i :: k <= i <= k + 1 ==>
         entries[i].amount == p.amount && entries[i].currency == p.currency &&
         entries[i].referenceType == Ledger.REF_PAYMENT && entries[i].referenceId == Uuid(payment)
  }

  ghost predicate InLedger(entries: seq<Ledger.Entry>, payment: nat, p: Payment) {
    exists k: nat :: MovementAt(entries, k, payment, p)
  }

  lemma {:induction false} PostingInEntries(ps: seq<Posting>, j: nat)
    requires j < |ps|
    ensures |Flatten(ps)| == 2 * |ps| && Flatten(ps)[2 * j..2 * j + 2] == EntriesOf(ps[j])
  {
    var n := |ps| - 1;
    FlattenLength(ps);
    FlattenLength(ps[..n]);
    if j < n {
      PostingInEntries(ps[..n], j);
      assert Flatten(ps)[2 * j..2 * j + 2] == Flatten(ps[..n])[2 * j..2 * j + 2];
    }
  }

  lemma {:induction false} FlattenLength(ps: seq<Posting>)
    ensures |Flatten(ps)| == 2 * |ps|
  {
    if ps != [] { FlattenLength(ps[..|ps| - 1]); }
  }

  /** Each entry is one of the two of its posting. */
  lemma EntryOfPosting(ps: seq<Posting>, k: nat)
    requires k < |Flatten(ps)|
    ensures k / 2 < |ps| && |Flatten(ps)| == 2 * |ps| && Flatten(ps)[k] == EntriesOf(ps[k / 2])[k % 2]
  {
    var j := k / 2;
    FlattenLength(ps);
    PostingInEntries(ps, j);
    assert Flatten(ps)[k] == Flatten(ps)[2 * j..2 * j + 2][k - 2 * j];
  }

  /** A posting for a payment's created event debits and credits the payment's amount. */
  lemma PostingIsMovement(s: State, payment: nat, p: Posting)
    requires HistoryOk(s.api.payments, s.box) && payment in s.api.payments
    requires PostingOk(s.box.events, p) && payment in s.box.created && p.event == s.box.created[payment]
    ensures |EntriesOf(p)| == 2 && MovementAt(EntriesOf(p), 0, payment, s.api.payments[payment])
  {
  }

  lemma MovementShift(entries: seq<Ledger.Entry>, k: nat, pair: seq<Ledger.Entry>, payment: nat, p: Payment)
    requires k + 2 <= |entries| && entries[k..k + 2] == pair && MovementAt(pair, 0, payment, p)
    ensures MovementAt(entries, k, payment, p)
  {
  }

  lemma RecordSeen(cfg: Config, s: State, payment: nat)
    requires ContentOk(cfg.topic, s) && payment in s.api.payments
    ensures payment in s.box.created
    ensures Recorded(s.books, s.box.created[payment]) ==> InLedger(s.books.entries, payment, s.api.payments[payment])
  {
    assert CreatedEventOf(s.box, payment, s.api.payments[payment]);
    if Recorded(s.books, s.box.created[payment]) {
      var j :| 0 <= j < |s.books.postings| && s.books.postings[j].event == s.box.created[payment];
      PostingIsMovement(s, payment, s.books.postings[j]);
      PostingInEntries(s.books.postings, j);
      MovementShift(s.books.entries, 2 * j, EntriesOf(s.books.postings[j]), payment, s.api.payments[payment]);
    }
  }

  /** No loss: under every schedule, with crashes and with calls that took effect although they reported an
      error, the created event of every payment is in an unpublished outbox row, in an uncommitted topic copy,
      in a dead letter, or in the ledger with the payment's amount and currency; retention does not change that. */
  lemma NoLoss(cfg: Config, partitions: nat, schedule: seq<Label>, payment: nat)
    requires payment in Reached(cfg, partitions, schedule).api.payments
    ensures var s := Reached(cfg, partitions, schedule);
      payment in s.box.created && s.box.created[payment] in s.box.events
    ensures var s := Reached(cfg, partitions, schedule);
      var id := s.box.created[payment]; var e := NewPaymentCreated(payment, s.api.payments[payment]);
      || (id in s.box.rows && s.box.rows[id].status != Published && s.box.rows[id].event == e)
      || UncommittedCopy(cfg.topic, s.bus, id, e)
      || DeadLettered(cfg.topic, s.bus, id, e)
      || InLedger(s.books.entries, payment, s.api.payments[payment])
  {
    ReachedInv(cfg, partitions, schedule);
    var s := Reached(cfg, partitions, schedule);
    assert CreatedEventOf(s.box, payment, s.api.payments[payment]);
    var id := s.box.created[payment];
    var e := NewPaymentCreated(payment, s.api.payments[payment]);
    assert NotLost(cfg.topic, s, id);
    RecordSeen(cfg, s, payment);
  }
}
