/** What every run leaves in the tables and on the topics, row by row and field by field. */
module Observed {
  import opened Common
  import opened Messages
  import opened Wire
  import opened System
  import opened History
  import opened OutboxProtocol
  import opened Delivery
  import opened Conservation
  import Ledger
  import RA = ReplayAudit

  // ----- identifiers in the ledger

  /** Its three identifiers are different, and were generated. */
  predicate IdsGenerated(ids: set<nat>, p: Posting) {
    && p.transaction in ids && p.debitId in ids && p.creditId in ids
    && p.transaction != p.debitId && p.transaction != p.creditId && p.debitId != p.creditId
  }

  predicate IdsApart(p: Posting, q: Posting)
  {
    {p.transaction, p.debitId, p.creditId} !! {q.transaction, q.debitId, q.creditId}
  }

  ghost predicate IdsOk(b: Books) {
    && (forall j :: 0 <= j < |b.postings| ==> IdsGenerated(b.ids, b.postings[j]))
    && (forall i, j :: 0 <= i < j < |b.postings| ==> IdsApart(b.postings[i], b.postings[j]))
  }

  lemma PostIds(b: Books, p: Posting, now: int)
    requires IdsOk(b) && {p.transaction, p.debitId, p.creditId} !! b.ids
    requires p.transaction != p.debitId && p.transaction != p.creditId && p.debitId != p.creditId
    ensures IdsOk(PostOnce(b, p, now))
  {
    var b' := PostOnce(b, p, now);
    forall i, j | 0 <= i < j < |b'.postings| ensures IdsApart(b'.postings[i], b'.postings[j]) {
      if j == |b.postings| { assert IdsGenerated(b.ids, b.postings[i]); }
    }
  }

  lemma EnsureIds(b: Books, name: string, currency: string, normal: Ledger.Direction, id: nat)
    requires IdsOk(b)
    ensures IdsOk(EnsureAccount(b, name, currency, normal, id).0)
  {
  }

  lemma ConsumerIds(cfg: Config, s: State, k: nat, call: ConsumerCall)
    requires IdsOk(s.books) && ConsumerEnabled(s, k, call)
    ensures IdsOk(ConsumerStep(cfg, s, k, call).books)
  {
    match call
    case EnsureCash(id, _) =>
      EnsureIds(s.books, Ledger.CASH, HeldMovement(s.bus, k).value.1.currency, Ledger.Debit, id);
    case EnsurePayable(id, _) =>
      EnsureIds(s.books, Ledger.PAYABLE, HeldMovement(s.bus, k).value.1.currency, Ledger.Credit, id);
    case Post(t, d, c, _) => PostIds(s.books, HeldPosting(s, k, t, d, c), s.now);
    case _ => ConsumerBooksQuiet(cfg, s, k, call);
  }

  lemma StepIds(cfg: Config, s: State, l: Label)
    requires IdsOk(s.books)
    ensures IdsOk(Step(cfg, s, l).books)
  {
    if Enabled(cfg, s, l) {
      match l
      case Client(c, request) => ClientFrame(s, c, request);
      case Publish(p, call) => PublisherFrame(cfg, s, p, call);
      case Consume(k, step) => ConsumerIds(cfg, s, k, step);
      case Operate(o, command) => OperatorFrame(cfg, s, o, command);
      case _ =>
    }
  }

  lemma {:induction false} ReachedIds(cfg: Config, partitions: nat, schedule: seq<Label>)
    ensures IdsOk(Reached(cfg, partitions, schedule).books)
  {
    if schedule != [] {
      var n := |schedule| - 1;
      ReachedIds(cfg, partitions, schedule[..n]);
      StepIds(cfg, Reached(cfg, partitions, schedule[..n]), schedule[n]);
    }
  }

  lemma RowsApart(b: Books, i: nat, j: nat)
    requires IdsOk(b) && b.entries == Flatten(b.postings) && i < j < |b.entries|
    ensures var es := b.entries;
      es[i].id != es[j].id && (es[i].transaction == es[j].transaction <==> i / 2 == j / 2) && |es| % 2 == 0
  {
    EntryOfPosting(b.postings, i);
    EntryOfPosting(b.postings, j);
    assert IdsGenerated(b.ids, b.postings[i / 2]);
    if i / 2 < j / 2 { assert IdsApart(b.postings[i / 2], b.postings[j / 2]); }
  }

  /** In every run no two entries have the same id, and two entries have the same transaction exactly when they are the
      two rows of one pair: every transaction has two entries. */
  lemma EntriesApart(cfg: Config, partitions: nat, schedule: seq<Label>, i: nat, j: nat)
    requires i < j < |Reached(cfg, partitions, schedule).books.entries|
    ensures var es := Reached(cfg, partitions, schedule).books.entries;
      es[i].id != es[j].id && (es[i].transaction == es[j].transaction <==> i / 2 == j / 2) && |es| % 2 == 0
  {
    ReachedInv(cfg, partitions, schedule);
    ReachedIds(cfg, partitions, schedule);
    RowsApart(Reached(cfg, partitions, schedule).books, i, j);
  }

  // ----- rows of the ledger

  ghost predicate IsAccount(accounts: seq<Ledger.Account>, id: nat, name: string, currency: string) {
    exists i :: 0 <= i < |accounts| && accounts[i].id == id && accounts[i].name == name &&
      accounts[i].currency == currency
  }

  predicate IsRow(e: Ledger.Entry, transaction: nat, direction: Ledger.Direction, r: Ledger.Request) {
    && e.transaction == transaction && e.direction == direction && e.amount == r.amount && e.currency == r.currency
    && e.referenceType == "payment" && e.referenceId == r.paymentId
  }

  /** Rows k and k + 1: the cash account of the currency is debited and the merchants' account is credited. */
  ghost predicate MovementRows(b: Books, k: nat, r: Ledger.Request) {
    && k % 2 == 0 && k + 1 < |b.entries|
    && IsRow(b.entries[k], b.entries[k].transaction, Ledger.Debit, r)
    && IsRow(b.entries[k + 1], b.entries[k].transaction, Ledger.Credit, r)
    && IsAccount(b.accounts, b.entries[k].account, "finflow_cash", r.currency)
    && IsAccount(b.accounts, b.entries[k + 1].account, "merchant_payable", r.currency)
  }

  ghost predicate Booked(b: Books, r: Ledger.Request) { exists k: nat :: MovementRows(b, k, r) }

  lemma RowsOf(b: Books, j: nat)
    requires b.entries == Flatten(b.postings) && j < |b.postings| && PostingAccountsOk(b.accounts, b.postings[j])
    ensures MovementRows(b, 2 * j, b.postings[j].request)
  {
    FlattenLength(b.postings);
    EntryOfPosting(b.postings, 2 * j);
    EntryOfPosting(b.postings, 2 * j + 1);
  }

  lemma RowsOfPosting(cfg: Config, partitions: nat, schedule: seq<Label>, j: nat)
    requires j < |Reached(cfg, partitions, schedule).books.postings|
    ensures var b := Reached(cfg, partitions, schedule).books; MovementRows(b, 2 * j, b.postings[j].request)
  {
    ReachedInv(cfg, partitions, schedule);
    ReachedChart(cfg, partitions, schedule);
    RowsOf(Reached(cfg, partitions, schedule).books, j);
  }

  lemma PostedIsBooked(cfg: Config, partitions: nat, schedule: seq<Label>, event: nat, r: Ledger.Request)
    requires Posted(Reached(cfg, partitions, schedule).books, event, r)
    ensures Booked(Reached(cfg, partitions, schedule).books, r)
  {
    var b := Reached(cfg, partitions, schedule).books;
    var j :| 0 <= j < |b.postings| && b.postings[j].event == event && b.postings[j].request == r;
    RowsOfPosting(cfg, partitions, schedule, j);
  }

  /** In every run each pair of rows is the movement of a payment, on the accounts of its currency. */
  lemma RowsArePayments(cfg: Config, partitions: nat, schedule: seq<Label>, k: nat)
    requires 2 * k < |Reached(cfg, partitions, schedule).books.entries|
    ensures var s := Reached(cfg, partitions, schedule);
      exists p :: p in s.api.payments &&
        MovementRows(s.books, 2 * k, Ledger.Request(Uuid(p), s.api.payments[p].amount, s.api.payments[p].currency))
  {
    var s := Reached(cfg, partitions, schedule);
    ReachedInv(cfg, partitions, schedule);
    EntryOfPosting(s.books.postings, 2 * k);
    RowsOfPosting(cfg, partitions, schedule, k);
    var p := s.books.postings[k];
    assert PostingOk(s.box.events, p);
    assert EventOk(s.api.payments, s.box.created, p.event, s.box.events[p.event]);
  }

  // ----- messages the consumer has passed

  /** In every run a message below a committed offset, whoever wrote it, has an id and is no created event; or it
      orders a
      movement that is in the ledger; or a dead letter keeps it whole, with its place. */
  lemma NothingSkipped(cfg: Config, partitions: nat, schedule: seq<Label>, k: nat, i: nat)
    requires var bus := Reached(cfg, partitions, schedule).bus;
      k < |bus.partitions| && i < bus.partitions[k].committed
    ensures i < |Reached(cfg, partitions, schedule).bus.partitions[k].log|
    ensures var s := Reached(cfg, partitions, schedule); var m := s.bus.partitions[k].log[i];
      || OtherEvent(m)
      || (exists event, r :: Orders(m, event, r) && Booked(s.books, r))
      || (exists j :: 0 <= j < |s.bus.deadLetters| && Keeps(s.bus.deadLetters[j], m, k, i))
  {
    ReachedInv(cfg, partitions, schedule);
    var s := Reached(cfg, partitions, schedule);
    assert PartitionOk(cfg.topic, s.box.events, s.bus.partitions[k]);
    assert Passed(s.bus.partitions[k], i);
    var m := s.bus.partitions[k].log[i];
    if OrderPosted(s.books, m) {
      var event, r :| Orders(m, event, r) && Posted(s.books, event, r);
      PostedIsBooked(cfg, partitions, schedule, event, r);
    }
  }

  /** So a passed message without an event id, one whose body is no JSON, and one that the ledger rejects are in a dead
      letter, with their place. */
  lemma BadMessagesKept(cfg: Config, partitions: nat, schedule: seq<Label>, k: nat, i: nat)
    requires var bus := Reached(cfg, partitions, schedule).bus;
      k < |bus.partitions| && i < bus.partitions[k].committed && i < |bus.partitions[k].log|
    ensures var bus := Reached(cfg, partitions, schedule).bus; var m := bus.partitions[k].log[i];
      WithoutId(m) || Unreadable(m) || (IsCreatedMessage(m) && !HasOrder(m)) ==>
        exists j :: 0 <= j < |bus.deadLetters| && Keeps(bus.deadLetters[j], m, k, i)
  {
    NothingSkipped(cfg, partitions, schedule, k, i);
  }

  // ----- events

  predicate IsCreatedFor(e: Event, payment: nat) {
    e.aggregateId == Uuid(payment) && e.eventType == Str("payment.created")
  }

  predicate IsCreatedEventOf(e: Event, payment: nat, p: Payment) {
    IsCreatedFor(e, payment) && e.payload == CreatedBody(Uuid(payment), p.amount, p.currency)
  }

  /** In every run a payment has exactly one event of type payment.created, with its id, amount and currency. */
  lemma OneCreatedEvent(cfg: Config, partitions: nat, schedule: seq<Label>, payment: nat)
    requires payment in Reached(cfg, partitions, schedule).api.payments
    ensures var s := Reached(cfg, partitions, schedule);
      exists id :: id in s.box.events && IsCreatedEventOf(s.box.events[id], payment, s.api.payments[payment]) &&
        forall other :: other in s.box.events && IsCreatedFor(s.box.events[other], payment) ==> other == id
  {
    ReachedInv(cfg, partitions, schedule);
    var s := Reached(cfg, partitions, schedule);
    assert CreatedEventOf(s.box, payment, s.api.payments[payment]);
    var id := s.box.created[payment];
    assert IsCreatedEventOf(s.box.events[id], payment, s.api.payments[payment]);
    forall other | other in s.box.events && IsCreatedFor(s.box.events[other], payment) ensures other == id {
      assert EventOk(s.api.payments, s.box.created, other, s.box.events[other]);
    }
  }

  // ----- how often something was done

  /** How many steps of the run are such steps. */
  function Tally(cfg: Config, partitions: nat, schedule: seq<Label>, counts: (State, Label) -> bool): (n: nat) {
    if schedule == [] then 0
    else
      var n := |schedule| - 1;
      Tally(cfg, partitions, schedule[..n], counts) +
      (if counts(Reached(cfg, partitions, schedule[..n]), schedule[n]) then 1 else 0)
  }

  /** Claims of the row that take effect, whatever their callers are told. */
  function ClaimsOf(cfg: Config, id: nat): (f: (State, Label) -> bool) {
    (s: State, l: Label) =>
      Enabled(cfg, s, l) && l.Publish? && l.call.ClaimPending? && l.call.outcome != NotDone && id in l.call.chosen
  }

  function WritesOf(cfg: Config, id: nat): (f: (State, Label) -> bool) {
    (s: State, l: Label) => Enabled(cfg, s, l) && l.Publish? && l.call.Write? && l.call.id == id
  }

  function MarksOf(cfg: Config, id: nat): (f: (State, Label) -> bool) {
    (s: State, l: Label) => Enabled(cfg, s, l) && l.Publish? && l.call.Mark? && l.call.id == id
  }

  /** Acknowledged republications of a dead letter of the event. */
  function RepublicationsOf(cfg: Config, key: Text): (f: (State, Label) -> bool) {
    (s: State, l: Label) => Enabled(cfg, s, l) && l.Operate? && l.command.Republish? && l.command.acked &&
      s.audit.operators[l.operator].record.eventId == key
  }

  function One(b: bool): (n: nat) { if b then 1 else 0 }

  ghost predicate AttemptsIf(b: Box, id: nat, n: nat) {
    (id in b.rows ==> b.rows[id].attempts == n) && (id !in b.events ==> n == 0)
  }

  lemma ClaimAttempts(b: Box, p: nat, limit: int, chosen: seq<nat>, outcome: Outcome, id: nat)
    requires CanClaim(b, limit, chosen) && id in b.rows
    ensures var b' := TakeBatch(b, p, limit, chosen, outcome);
      id in b'.rows && b'.rows[id].attempts == b.rows[id].attempts + One(id in chosen && outcome != NotDone)
  {
  }

  lemma StepAttempts(cfg: Config, s: State, l: Label, id: nat, n: nat)
    requires Owned(s.box) && AttemptsIf(s.box, id, n)
    ensures AttemptsIf(Step(cfg, s, l).box, id, n + One(ClaimsOf(cfg, id)(s, l)))
  {
    if Enabled(cfg, s, l) {
      match l
      case Client(c, request) => InsertsAtMostOne(s, c, request);
      case Publish(p, call) =>
        PublisherKeys(cfg, s, p, call);
        if call.ClaimPending? {
          ChosenClaimable(s.box, call.limit, call.chosen, id);
          if id in s.box.rows { ClaimAttempts(s.box, p, call.limit, call.chosen, call.outcome, id); }
        }
      case _ =>
    }
  }

  lemma {:induction false} ReachedAttempts(cfg: Config, partitions: nat, schedule: seq<Label>, id: nat)
    ensures AttemptsIf(Reached(cfg, partitions, schedule).box, id, Tally(cfg, partitions, schedule, ClaimsOf(cfg, id)))
  {
    if schedule != [] {
      var n := |schedule| - 1;
      ReachedAttempts(cfg, partitions, schedule[..n], id);
      ReachedOwned(cfg, partitions, schedule[..n]);
      StepAttempts(cfg, Reached(cfg, partitions, schedule[..n]), schedule[n], id,
        Tally(cfg, partitions, schedule[..n], ClaimsOf(cfg, id)));
    }
  }

  lemma StepCalls(cfg: Config, s: State, l: Label, id: nat)
    ensures var b, b' := s.box, Step(cfg, s, l).box;
      && Count(b'.writes, id) == Count(b.writes, id) + One(WritesOf(cfg, id)(s, l))
      && Count(b'.marks, id) == Count(b.marks, id) + One(MarksOf(cfg, id)(s, l))
  {
    if Enabled(cfg, s, l) && l.Client? { InsertsAtMostOne(s, l.client, l.request); }
  }

  lemma {:induction false} ReachedCalls(cfg: Config, partitions: nat, schedule: seq<Label>, id: nat)
    ensures var b := Reached(cfg, partitions, schedule).box;
      && Count(b.writes, id) == Tally(cfg, partitions, schedule, WritesOf(cfg, id))
      && Count(b.marks, id) == Tally(cfg, partitions, schedule, MarksOf(cfg, id))
  {
    if schedule != [] {
      var n := |schedule| - 1;
      ReachedCalls(cfg, partitions, schedule[..n], id);
      StepCalls(cfg, Reached(cfg, partitions, schedule[..n]), schedule[n], id);
    }
  }

  /** In every run the attempts of a row are the claims of it that took effect; at most as many writes of it were issued
      as it was claimed, and at most as many marks as writes. */
  lemma CallsPerClaim(cfg: Config, partitions: nat, schedule: seq<Label>, id: nat)
    requires id in Reached(cfg, partitions, schedule).box.rows
    ensures Reached(cfg, partitions, schedule).box.rows[id].attempts ==
            Tally(cfg, partitions, schedule, ClaimsOf(cfg, id))
    ensures Tally(cfg, partitions, schedule, MarksOf(cfg, id)) <= Tally(cfg, partitions, schedule, WritesOf(cfg, id)) <=
            Tally(cfg, partitions, schedule, ClaimsOf(cfg, id))
  {
    ReachedAttempts(cfg, partitions, schedule, id);
    ReachedCalls(cfg, partitions, schedule, id);
    WritesWithinAttempts(cfg, partitions, schedule, id);
  }

  lemma StepAcks(cfg: Config, s: State, l: Label, key: Text)
    ensures Count(Step(cfg, s, l).audit.acks, key) == Count(s.audit.acks, key) + One(RepublicationsOf(cfg, key)(s, l))
  {
    if Enabled(cfg, s, l) && !l.Operate? && !l.Purge? { RA.AuditFrame(cfg, s, l); }
  }

  lemma {:induction false} ReachedAcks(cfg: Config, partitions: nat, schedule: seq<Label>, key: Text)
    ensures Count(Reached(cfg, partitions, schedule).audit.acks, key) ==
            Tally(cfg, partitions, schedule, RepublicationsOf(cfg, key))
  {
    if schedule != [] {
      var n := |schedule| - 1;
      ReachedAcks(cfg, partitions, schedule[..n], key);
      StepAcks(cfg, Reached(cfg, partitions, schedule[..n]), schedule[n], key);
    }
  }

  /** In every run an event has at most one acknowledged republication, unless retention removed its audit row. */
  lemma OneRepublication(cfg: Config, partitions: nat, schedule: seq<Label>, key: Text)
    requires key !in Reached(cfg, partitions, schedule).audit.purged
    ensures Tally(cfg, partitions, schedule, RepublicationsOf(cfg, key)) <= 1
  {
    ReachedAcks(cfg, partitions, schedule, key);
    RA.OneAcknowledgedReplay(cfg, partitions, schedule, key);
  }
}
