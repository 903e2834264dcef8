/** Schedules, in every configuration, that reach what does not hold or what one may doubt: a payment with two pairs of
    entries, an update that is told its payment does not exist, rows that are never finished, and messages that the
    ledger cannot accept. */
module Counterexamples {
  import opened Common
  import opened Messages
  import opened System
  import opened History
  import opened Delivery
  import opened Passing
  import opened Deliverable
  import opened ExactlyOnce
  import opened Stuck
  import opened DeadLetter
  import opened Wire
  import Rules = PaymentRules
  import TB = TrialBalance

  // ----- one payment

  const REQUEST: Rules.CreateRequest := Rules.CreateRequest(100, "USD", "", "")

  const PAYMENT: Payment := Payment(100, "USD", Pending, "", "", "", "")

  lemma RequestIsGood()
    ensures Rules.Normalise(REQUEST) == REQUEST && Trim("") == "" && Creatable(REQUEST, "")
    ensures NewPayment(REQUEST, "") == PAYMENT
  {
    NormalCurrencyStable("USD");
  }

  /** Payment 0 with created event 0, and nothing else done yet. */
  ghost predicate JustCreated(s: State) {
    && s.api.payments == map[0 := PAYMENT] && s.api.clients == map[]
    && s.box.created == map[0 := 0] && s.box.events == map[0 := NewPaymentCreated(0, PAYMENT)]
    && s.box.rows == map[0 := OutboxRow(NewPaymentCreated(0, PAYMENT), Waiting, 0, None)] && s.box.publishers == map[]
    && s.bus == Init(1).bus && s.books == Init(1).books && s.audit == Init(1).audit
  }

  lemma CreateOne(cfg: Config) returns (schedule: seq<Label>)
    ensures JustCreated(Reached(cfg, 1, schedule))
  {
    var l := Client(0, Insert(0, 0, REQUEST, "", Done));
    RequestIsGood();
    RunLast(cfg, Init(1), [], l);
    assert Reached(cfg, 1, []) == Init(1);
    schedule := [] + [l];
  }

  // ----- two pairs of entries

  /** The consumer of partition 0 is free, and the message at its offset is payment 0's created event. */
  ghost predicate Waiting0(topic: string, s: State, offset: nat) {
    && 0 in s.api.payments && s.box.created == map[0 := 0]
    && |s.bus.partitions| == 1 && s.bus.partitions[0].consumer == Idle && s.bus.partitions[0].committed == offset
    && offset < |s.bus.partitions[0].log|
    && 0 in s.box.events && IsCreated(s.box.events[0])
    && Carries(s.bus.partitions[0].log[offset], topic, 0, s.box.events[0])
  }

  /** The event is written, in that many copies, and not yet marked. */
  lemma Publish0(cfg: Config, schedule: seq<Label>, copies: nat) returns (after: seq<Label>)
    requires JustCreated(Reached(cfg, 1, schedule)) && copies >= 1
    ensures var s, s' := Reached(cfg, 1, schedule), Reached(cfg, 1, after);
      && Waiting0(cfg.topic, s', 0) && s' == s.(box := s'.box, bus := s'.bus)
      && s'.box.events == s.box.events && 0 in s'.box.rows && s'.bus.deadLetters == []
      && s'.box.publishers == map[0 := Publisher([Claim(0, NewPaymentCreated(0, PAYMENT))], Some(true))]
      && s'.bus.partitions[0].log == Repeat(s'.bus.partitions[0].log[0], copies)
  {
    var claim, write := Publish(0, ClaimPending(25, [0], Done)), Publish(0, Write(0, [], 0, copies, true));
    RunLast(cfg, Init(1), schedule, claim);
    var claimed := Reached(cfg, 1, schedule + [claim]);
    assert claimed.box.publishers[0] == Publisher([Claim(0, NewPaymentCreated(0, PAYMENT))], None);
    RunLast(cfg, Init(1), schedule + [claim], write);
    WrittenIsGenuine(cfg.topic, claimed.box.events, claimed.box.publishers[0].queue[0], []);
    after := schedule + [claim] + [write];
  }

  /** The message is handled without an error and committed; its event is posted once more if it has no dedup row. */
  lemma ConsumeOne(cfg: Config, schedule: seq<Label>, offset: nat) returns (after: seq<Label>)
    requires Waiting0(cfg.topic, Reached(cfg, 1, schedule), offset)
    ensures var s, s' := Reached(cfg, 1, schedule), Reached(cfg, 1, after);
      && Committed(s, s', 0)
      && (0 !in s.books.consumed ==>
            s'.books.consumed == s.books.consumed[0 := s.now] &&
            Times(s'.books.postings, 0) == Times(s.books.postings, 0) + 1)
  {
    var s := Reached(cfg, 1, schedule);
    ReachedInv(cfg, 1, schedule);
    HeldMovementOk(cfg.topic, s, 0);
    assert CopyOfCreated(cfg.topic, s.box.events, Held(s.bus, 0), 0);
    var pass := PassMessage(cfg, s, 0);
    RunAppend(cfg, Init(1), schedule, pass);
    after := schedule + pass;
  }

  /** The clock passes the retention and the dedup row of event 0 is removed. */
  lemma Forget(cfg: Config, schedule: seq<Label>) returns (after: seq<Label>)
    requires var s := Reached(cfg, 1, schedule); s.books.consumed == map[0 := s.now]
    ensures var s, s' := Reached(cfg, 1, schedule), Reached(cfg, 1, after);
      s'.api == s.api && s'.box == s.box && s'.bus == s.bus && 0 !in s'.books.consumed &&
        s'.books.postings == s.books.postings
  {
    var s := Reached(cfg, 1, schedule);
    var elapsed := if cfg.consumedRetention < 0 then 1 else cfg.consumedRetention + 1;
    var purge := Purge(s.now + elapsed - cfg.consumedRetention, PurgeConsumed({0}));
    RunLast(cfg, Init(1), schedule, Tick(elapsed));
    RunLast(cfg, Init(1), schedule + [Tick(elapsed)], purge);
    after := schedule + [Tick(elapsed)] + [purge];
  }

  /** In every configuration a schedule ends with two pairs of entries for one payment: its event is published in two
      copies, and the second is consumed after retention removed the dedup row. */
  lemma TwoPairsReachable(cfg: Config) returns (schedule: seq<Label>)
    ensures var s := Reached(cfg, 1, schedule);
      0 in s.api.payments && |TB.OfPayment(s.books.entries, Uuid(0))| == 4
  {
    schedule := CreateOne(cfg);
    schedule := Publish0(cfg, schedule, 2);
    schedule := ConsumeOne(cfg, schedule, 0);
    schedule := Forget(cfg, schedule);
    schedule := ConsumeOne(cfg, schedule, 1);
    ReachedInv(cfg, 1, schedule);
    PairsPosted(cfg, Reached(cfg, 1, schedule), 0);
  }

  // ----- a lost update

  /** A client reads payment 0 as pending and keeps what it wants to make of it. */
  lemma ReadOne(cfg: Config, schedule: seq<Label>, c: nat, target: PaymentStatus) returns (after: seq<Label>)
    requires var s := Reached(cfg, 1, schedule);
      c !in s.api.clients && 0 in s.api.payments && s.api.payments[0].status == Pending && Rules.Terminal(target)
    ensures var s, s' := Reached(cfg, 1, schedule), Reached(cfg, 1, after);
      s' == s.(api := s.api.(clients := s.api.clients[c := Updating(0, Pending, target)]))
  {
    RunLast(cfg, Init(1), schedule, Client(c, ReadCurrent(0, target)));
    after := schedule + [Client(c, ReadCurrent(0, target))];
  }

  lemma TwoReaders(cfg: Config, schedule: seq<Label>) returns (after: seq<Label>)
    requires JustCreated(Reached(cfg, 1, schedule))
    ensures var s := Reached(cfg, 1, after);
      && s.api.payments == map[0 := PAYMENT] && s.box.events == map[0 := NewPaymentCreated(0, PAYMENT)]
      && s.api.clients == map[1 := Updating(0, Pending, Succeeded), 2 := Updating(0, Pending, Failed)]
  {
    var first := ReadOne(cfg, schedule, 1, Succeeded);
    after := ReadOne(cfg, first, 2, Failed);
  }

  /** The first client's swap succeeds. */
  lemma WinSwap(cfg: Config, schedule: seq<Label>) returns (after: seq<Label>)
    requires JustCreated(Reached(cfg, 1, schedule))
    ensures var s := Reached(cfg, 1, after);
      && 0 in s.api.payments && s.api.payments[0].status == Succeeded && 2 !in s.box.events
      && s.api.clients == map[2 := Updating(0, Pending, Failed)]
  {
    var both := TwoReaders(cfg, schedule);
    RunLast(cfg, Init(1), both, Client(1, Swap(1, Done)));
    after := both + [Client(1, Swap(1, Done))];
  }

  /** In every configuration a schedule ends with the answer that payment 0 was not found, although it is there: two
      clients read it as pending, and the second one's swap comes after the first one's. */
  lemma LostUpdateReachable(cfg: Config) returns (schedule: seq<Label>)
    ensures var a := Reached(cfg, 1, schedule).api;
      && 0 in a.payments && a.payments[0].status == Succeeded
      && a.replies != [] && a.replies[|a.replies| - 1] == NotFoundReply(0)
  {
    var created := CreateOne(cfg);
    var won := WinSwap(cfg, created);
    RunLast(cfg, Init(1), won, Client(2, Swap(2, Done)));
    schedule := won + [Client(2, Swap(2, Done))];
  }

  // ----- what is never finished

  /** In every configuration a schedule ends with a stranded row, whose payment no continuation brings into the ledger:
      its claim took effect, and reported an error. */
  lemma StrandedReachable(cfg: Config) returns (schedule: seq<Label>)
    ensures var s := Reached(cfg, 1, schedule);
      && s.api.payments == map[0 := PAYMENT] && s.box.created == map[0 := 0] && Stranded(s.box, 0)
      && forall after :: !InLedgerAfter(cfg, s, after, 0, PAYMENT)
  {
    var created := CreateOne(cfg);
    var claim := Publish(0, ClaimPending(25, [0], DoneButError));
    RunLast(cfg, Init(1), created, claim);
    schedule := created + [claim];
    CanReachLedgerExactly(cfg, 1, schedule, 0);
  }

  /** The ledger's database fails until the attempts are used up. */
  lemma {:induction false} UseUpAttempts(cfg: Config, s: State, k: nat) returns (after: seq<Label>, c: Consumer)
    requires Handles(s.bus, k) && s.bus.partitions[k].consumer.stage == Start && HeldMovement(s.bus, k).Some?
    ensures AtStage(s, Run(cfg, s, after), k, c) && c.Broken?
    decreases cfg.maxAttempts - s.bus.partitions[k].consumer.attempt
  {
    var id := FreshId(s.books.ids);
    var fail := Consume(k, EnsureCash(id, NotDone));
    var s1 := Step(cfg, s, fail);
    c := AfterFailure(s.bus.partitions[k].consumer, cfg.maxAttempts);
    assert AtStage(s, s1, k, c);
    var rest := [];
    if c.Handling? { rest, c := UseUpAttempts(cfg, s1, k); }
    RunFirst(cfg, s, fail, rest);
    after := [fail] + rest;
  }

  /** Payment 0's event is published in one copy, at the offset of a free consumer. */
  ghost predicate JustPublished(topic: string, s: State) {
    && Waiting0(topic, s, 0) && s.api.payments == map[0 := PAYMENT] && s.books == Init(1).books
    && s.audit == Init(1).audit && s.box.events == map[0 := NewPaymentCreated(0, PAYMENT)] && s.box.publishers == map[]
    && 0 in s.box.rows && s.box.rows[0].status == Published
    && |s.bus.partitions[0].log| == 1 && s.bus.deadLetters == []
  }

  lemma PublishOnce(cfg: Config, schedule: seq<Label>) returns (after: seq<Label>)
    requires JustCreated(Reached(cfg, 1, schedule))
    ensures JustPublished(cfg.topic, Reached(cfg, 1, after))
  {
    var written := Publish0(cfg, schedule, 1);
    var mark := Publish(0, Mark(0, true, Done));
    RunLast(cfg, Init(1), written, mark);
    after := written + [mark];
  }

  /** The consumer gives up on the event and passes it. */
  lemma GiveUp(cfg: Config, s: State) returns (after: seq<Label>)
    requires Inv(cfg.topic, s) && JustPublished(cfg.topic, s)
    ensures var s' := Run(cfg, s, after);
      && Committed(s, s', 0) && s'.books.postings == s.books.postings && |s'.bus.deadLetters| == 1
      && s'.bus.deadLetters[0] == RecordOf(s.bus.partitions[0].log[0], 0, 0, "", s'.bus.deadLetters[0].attempts, s.now)
  {
    HeldMovementOk(cfg.topic, s, 0);
    assert CopyOfCreated(cfg.topic, s.box.events, Held(s.bus, 0), 0);
    var first := Fetched(cfg, s, 0);
    var s1 := Run(cfg, s, first);
    var second, c := UseUpAttempts(cfg, s1, 0);
    var s2 := Run(cfg, s1, second);
    var third := Buried(cfg, s2, 0);
    RunAppend(cfg, s, first, second + third);
    RunAppend(cfg, s1, second, third);
    after := first + (second + third);
  }

  /** The operator's claim takes effect, and reports an error. */
  lemma LoseReplay(cfg: Config, s: State) returns (l: Label)
    requires s.audit == Init(1).audit && s.bus.deadLetters != []
    requires Replayable(s.bus.deadLetters[0], cfg.topic, "operator", "reason")
    ensures var s' := Step(cfg, s, l); s' == s.(audit := s'.audit) && Unclaimed(s'.audit, s.bus.deadLetters[0].eventId)
  {
    l := Operate(0, StartReplay(0, "operator", "reason", 0, DoneButError));
  }

  /** Payment 0's event is in a dead letter and nowhere else, and its replay is stuck. */
  ghost predicate ReplayStuck(topic: string, s: State) {
    && s.api.payments == map[0 := PAYMENT] && s.box.created == map[0 := 0]
    && DeadLettered(topic, s.bus, 0, NewPaymentCreated(0, PAYMENT)) && Unclaimed(s.audit, Uuid(0))
  }

  lemma LoseDeadLetter(cfg: Config, s: State) returns (after: seq<Label>)
    requires Inv(cfg.topic, s) && JustPublished(cfg.topic, s)
    ensures var s' := Run(cfg, s, after); ReplayStuck(cfg.topic, s') && IsCreatedEvent(s', 0)
    ensures !WithinReach(cfg.topic, Run(cfg, s, after), 0)
  {
    var first := GiveUp(cfg, s);
    var s1 := Run(cfg, s, first);
    var l := LoseReplay(cfg, s1);
    RunLast(cfg, s, first, l);
    after := first + [l];
    assert Source(s1.bus.deadLetters[0]) == s.bus.partitions[0].log[0];
  }

  /** In every configuration a schedule ends with a payment whose event is in a dead letter, and which no continuation
      brings into the ledger: the claim of its replay took effect, and reported an error. */
  lemma DeadLetterStuckReachable(cfg: Config) returns (schedule: seq<Label>)
    ensures ReplayStuck(cfg.topic, Reached(cfg, 1, schedule))
    ensures forall after :: !InLedgerAfter(cfg, Reached(cfg, 1, schedule), after, 0, PAYMENT)
  {
    var created := CreateOne(cfg);
    var published := PublishOnce(cfg, created);
    ReachedInv(cfg, 1, published);
    var more := LoseDeadLetter(cfg, Reached(cfg, 1, published));
    schedule := published + more;
    RunAppend(cfg, Init(1), published, more);
    ReachedSane(cfg, 1, schedule);
    BeyondTheLedger(cfg, Reached(cfg, 1, schedule), 0);
  }

  // ----- messages the ledger cannot accept

  /** Whatever another producer writes, the consumer gets to handle it. */
  lemma FetchForeign(cfg: Config, m: Message) returns (schedule: seq<Label>)
    requires m.topic == cfg.topic && MovementOf(m) == None
    ensures Reached(cfg, 1, schedule) ==
      Init(1).(bus := Bus([Partition([m], 0, Handling(1, Start))], []))
  {
    var produce, fetch := Produce(0, m), Consume(0, Fetch);
    assert Reached(cfg, 1, []) == Init(1);
    RunLast(cfg, Init(1), [], produce);
    assert [] + Repeat(m, 1) == [m];
    assert AppendTo(Init(1).bus, 0, m, 1).partitions == [Partition([m], 0, Idle)];
    RunLast(cfg, Init(1), [] + [produce], fetch);
    schedule := [] + [produce] + [fetch];
  }

  function CreatedHeaders(eventId: Text): (headers: seq<Header>) {
    [Header(EVENT_ID, eventId), Header(EVENT_TYPE, PAYMENT_CREATED)]
  }

  lemma CreatedLookups(eventId: Text)
    ensures Lookup(CreatedHeaders(eventId), EVENT_ID) == eventId
    ensures Lookup(CreatedHeaders(eventId), EVENT_TYPE) == PAYMENT_CREATED
  {
    LookupIsFirst(CreatedHeaders(eventId), EVENT_ID, 0);
    LookupIsFirst(CreatedHeaders(eventId), EVENT_TYPE, 1);
  }

  function WithoutIdMessage(topic: string): (m: Message) {
    Message(topic, EMPTY, CreatedBody(Uuid(0), 100, "USD"), [Header(EVENT_TYPE, PAYMENT_CREATED)])
  }

  function UnreadableMessage(topic: string): (m: Message) {
    Message(topic, EMPTY, Undecodable(""), CreatedHeaders(Uuid(0)))
  }

  /** A created event for no payment. */
  function RejectedMessage(topic: string): (m: Message) {
    Message(topic, EMPTY, CreatedBody(EMPTY, 100, "USD"), CreatedHeaders(Uuid(0)))
  }

  /** The consumer of partition 0 is handling the message. */
  ghost predicate IsHandling(cfg: Config, schedule: seq<Label>, m: Message) {
    var bus := Reached(cfg, 1, schedule).bus; Handles(bus, 0) && Held(bus, 0) == m
  }

  /** In every configuration a consumer gets to handle a message without an event id, a created event whose body is no
      JSON,
      and one that the ledger rejects. */
  lemma BadMessagesReachable(cfg: Config)
    returns (withoutId: seq<Label>, unreadable: seq<Label>, rejected: seq<Label>)
    ensures WithoutId(WithoutIdMessage(cfg.topic)) && IsHandling(cfg, withoutId, WithoutIdMessage(cfg.topic))
    ensures Unreadable(UnreadableMessage(cfg.topic)) && IsHandling(cfg, unreadable, UnreadableMessage(cfg.topic))
    ensures AsksLedger(RejectedMessage(cfg.topic)) && !HasOrder(RejectedMessage(cfg.topic))
    ensures IsHandling(cfg, rejected, RejectedMessage(cfg.topic))
  {
    var m1, m2, m3 := WithoutIdMessage(cfg.topic), UnreadableMessage(cfg.topic), RejectedMessage(cfg.topic);
    CreatedLookups(Uuid(0));
    ReadsAs(m1);
    ReadsAs(m2);
    ReadsAs(m3);
    OrderExactly(m3);
    withoutId := FetchForeign(cfg, m1);
    unreadable := FetchForeign(cfg, m2);
    rejected := FetchForeign(cfg, m3);
  }
}
