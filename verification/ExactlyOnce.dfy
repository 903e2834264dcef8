/** Exactly-once effect: duplicates, redeliveries and replays leave an event with no ledger entries or with
    exactly one pair, as long as its dedup row is kept, or its deliveries are not later than the retention. */
module ExactlyOnce {
  import opened Messages
  import opened System
  import opened History
  import opened Delivery
  import Ledger
  import TB = TrialBalance

  // ----- duplicates need a removed dedup row

  /** The posted events are those that have a dedup row or whose row retention removed; two postings of one event only
      after it was removed. */
  ghost predicate OnceUnlessPurged(b: Books) {
    && (forall j :: 0 <= j < |b.postings| ==> b.postings[j].event in b.consumed || b.postings[j].event in b.purged)
    && (forall i, j :: 0 <= i < j < |b.postings| && b.postings[i].event == b.postings[j].event ==>
          b.postings[i].event in b.purged)
    && (forall id :: id in b.consumed || id in b.purged ==> Recorded(b, id))
  }

  lemma PostOnceUnlessPurged(b: Books, p: Posting, now: int)
    requires OnceUnlessPurged(b)
    ensures OnceUnlessPurged(PostOnce(b, p, now))
  {
    var b' := PostOnce(b, p, now);
    if p.event !in b.consumed {
      assert b'.postings[|b.postings|].event == p.event;
      forall id | id in b'.consumed || id in b'.purged ensures Recorded(b', id) {
        if id != p.event { RecordedGrows(b, b', id); }
      }
    }
  }

  /** The consumer's effect on the ledger, for the purposes of deduplication. */
  lemma ConsumerPosts(cfg: Config, s: State, k: nat, call: ConsumerCall)
    requires ConsumerEnabled(s, k, call)
    ensures var b' := ConsumerStep(cfg, s, k, call).books;
      if call.Post? && call.outcome.TookEffect()
      then b' == PostOnce(s.books, HeldPosting(s, k, call.transaction, call.debitId, call.creditId), s.now)
      else b'.postings == s.books.postings && b'.consumed == s.books.consumed &&
           b'.purged == s.books.purged && b'.stamps == s.books.stamps
  {
  }

  lemma StepOnceUnlessPurged(cfg: Config, s: State, l: Label)
    requires OnceUnlessPurged(s.books)
    ensures OnceUnlessPurged(Step(cfg, s, l).books)
  {
    if Enabled(cfg, s, l) {
      match l
      case Client(c, request) => ClientFrame(s, c, request);
      case Publish(p, call) => PublisherFrame(cfg, s, p, call);
      case Consume(k, step) =>
        ConsumerPosts(cfg, s, k, step);
        if step.Post? {
          PostOnceUnlessPurged(s.books, HeldPosting(s, k, step.transaction, step.debitId, step.creditId), s.now);
        }
      case Operate(o, command) => OperatorFrame(cfg, s, o, command);
      case _ =>
    }
  }

  lemma {:induction false} ReachedOnceUnlessPurged(cfg: Config, partitions: nat, schedule: seq<Label>)
    ensures OnceUnlessPurged(Reached(cfg, partitions, schedule).books)
  {
    if schedule != [] {
      var n := |schedule| - 1;
      ReachedOnceUnlessPurged(cfg, partitions, schedule[..n]);
      StepOnceUnlessPurged(cfg, Reached(cfg, partitions, schedule[..n]), schedule[n]);
    }
  }

  // ----- timely deliveries on one clock

  /** A ledger transaction for an event runs no later than the retention after the event's consumed_at. */
  ghost predicate Timely(cfg: Config, s: State, l: Label) {
    l.Consume? && l.step.Post? && Enabled(cfg, s, l) ==>
      var id := HeldMovement(s.bus, l.partition).value.0;
      id in s.books.stamps ==> s.now <= s.books.stamps[id] + cfg.consumedRetention
  }

  ghost predicate TimelyRun(cfg: Config, partitions: nat, schedule: seq<Label>) {
    forall i :: 0 <= i < |schedule| ==> Timely(cfg, Reached(cfg, partitions, schedule[..i]), schedule[i])
  }

  ghost predicate Distinct(ps: seq<Posting>) {
    forall i, j :: 0 <= i < j < |ps| ==> ps[i].event != ps[j].event
  }

  /** An event with a posting still has its dedup row, or its retention has run out. */
  ghost predicate OnceWhileRetained(cfg: Config, now: int, b: Books) {
    && Distinct(b.postings)
    && (forall id :: id in b.consumed ==> id in b.stamps && b.consumed[id] == b.stamps[id])
    && (forall j :: 0 <= j < |b.postings| ==>
          var id := b.postings[j].event;
          id in b.stamps && (id in b.consumed || b.stamps[id] + cfg.consumedRetention < now))
  }

  lemma PostWhileRetained(cfg: Config, b: Books, p: Posting, now: int)
    requires OnceWhileRetained(cfg, now, b)
    requires p.event in b.stamps ==> now <= b.stamps[p.event] + cfg.consumedRetention
    ensures OnceWhileRetained(cfg, now, PostOnce(b, p, now))
  {
  }

  lemma PurgeWhileRetained(cfg: Config, s: State, cutoff: int, batch: PurgeCall)
    requires OnceWhileRetained(cfg, s.now, s.books) && PurgeEnabled(cfg, s, cutoff, batch)
    ensures OnceWhileRetained(cfg, s.now, PurgeStep(s, batch).books)
  {
  }

  lemma StepWhileRetained(cfg: Config, s: State, l: Label)
    requires OnceWhileRetained(cfg, s.now, s.books) && Timely(cfg, s, l)
    ensures OnceWhileRetained(cfg, Step(cfg, s, l).now, Step(cfg, s, l).books)
  {
    if Enabled(cfg, s, l) {
      match l
      case Tick(_) =>
      case Client(c, request) => ClientFrame(s, c, request);
      case Publish(p, call) => PublisherFrame(cfg, s, p, call);
      case Consume(k, step) =>
        ConsumerFrame(cfg, s, k, step);
        ConsumerPosts(cfg, s, k, step);
        if step.Post? {
          PostWhileRetained(cfg, s.books, HeldPosting(s, k, step.transaction, step.debitId, step.creditId), s.now);
        }
      case Operate(o, command) => OperatorFrame(cfg, s, o, command);
      case Purge(cutoff, batch) => PurgeWhileRetained(cfg, s, cutoff, batch);
      case Produce(_, _) =>
    }
  }

  lemma {:induction false} ReachedWhileRetained(cfg: Config, partitions: nat, schedule: seq<Label>)
    requires TimelyRun(cfg, partitions, schedule)
    ensures var s := Reached(cfg, partitions, schedule); OnceWhileRetained(cfg, s.now, s.books)
  {
    if schedule != [] {
      var n := |schedule| - 1;
      forall i | 0 <= i < n ensures Timely(cfg, Reached(cfg, partitions, schedule[..n][..i]), schedule[..n][i]) {
        assert schedule[..n][..i] == schedule[..i];
        assert Timely(cfg, Reached(cfg, partitions, schedule[..i]), schedule[i]);
      }
      ReachedWhileRetained(cfg, partitions, schedule[..n]);
      assert Timely(cfg, Reached(cfg, partitions, schedule[..n]), schedule[n]);
      StepWhileRetained(cfg, Reached(cfg, partitions, schedule[..n]), schedule[n]);
    }
  }

  // ----- in terms of ledger entries

  function PostingsFor(ps: seq<Posting>, payment: Text): (mine: seq<Posting>) {
    if ps == [] then []
    else
      var rest := PostingsFor(ps[..|ps| - 1], payment);
      if ps[|ps| - 1].request.paymentId == payment then rest + [ps[|ps| - 1]] else rest
  }

  lemma OfPaymentPair(entries: seq<Ledger.Entry>, a: Ledger.Entry, b: Ledger.Entry, payment: Text)
    requires a.referenceType == b.referenceType == Ledger.REF_PAYMENT && a.referenceId == b.referenceId
    ensures TB.OfPayment(entries + [a, b], payment) ==
            TB.OfPayment(entries, payment) + (if a.referenceId == payment then [a, b] else [])
  {
    var es := entries + [a, b];
    assert es[..|es| - 1] == entries + [a];
    assert (entries + [a])[..|entries|] == entries;
    assert TB.OfPayment(entries, payment) + [a, b] == TB.OfPayment(entries, payment) + [a] + [b];
  }

  /** The entries that reference a payment are those of its postings, in table order. */
  lemma {:induction false} EntriesOfPayment(ps: seq<Posting>, payment: Text)
    ensures TB.OfPayment(Flatten(ps), payment) == Flatten(PostingsFor(ps, payment))
  {
    if ps != [] {
      var n := |ps| - 1;
      EntriesOfPayment(ps[..n], payment);
      var pair := EntriesOf(ps[n]);
      assert pair == [pair[0], pair[1]];
      OfPaymentPair(Flatten(ps[..n]), pair[0], pair[1], payment);
      var rest := PostingsFor(ps[..n], payment);
      assert (rest + [ps[n]])[..|rest|] == rest;
    }
  }

  /** A posting references a payment exactly when it is for the payment's created event. */
  lemma PostingsOfPayment(cfg: Config, s: State, payment: nat)
    requires ContentOk(cfg.topic, s) && payment in s.api.payments
    ensures payment in s.box.created
    ensures forall j :: 0 <= j < |s.books.postings| ==>
      (s.books.postings[j].request.paymentId == Uuid(payment) <==> s.books.postings[j].event == s.box.created[payment])
  {
    assert CreatedEventOf(s.box, payment, s.api.payments[payment]);
    forall j | 0 <= j < |s.books.postings|
      ensures s.books.postings[j].request.paymentId == Uuid(payment) <==>
        s.books.postings[j].event == s.box.created[payment]
    {
      var p := s.books.postings[j];
      assert PostingOk(s.box.events, p);
      assert EventOk(s.api.payments, s.box.created, p.event, s.box.events[p.event]);
    }
  }

  /** How often an event was posted. */
  function Times(ps: seq<Posting>, event: nat): (n: nat) {
    if ps == [] then 0 else Times(ps[..|ps| - 1], event) + (if ps[|ps| - 1].event == event then 1 else 0)
  }

  lemma {:induction false} TimesPosted(ps: seq<Posting>, event: nat)
    ensures Times(ps, event) > 0 <==> PostedIn(ps, event)
  {
    if ps != [] {
      var n := |ps| - 1;
      TimesPosted(ps[..n], event);
      if PostedIn(ps[..n], event) {
        var j :| 0 <= j < n && ps[..n][j].event == event;
        assert ps[j].event == event;
      }
      if PostedIn(ps, event) {
        var j :| 0 <= j < |ps| && ps[j].event == event;
        assert j < n ==> ps[..n][j].event == event;
      }
    }
  }

  lemma {:induction false} TimesAtMostOne(ps: seq<Posting>, event: nat)
    requires forall i, j :: 0 <= i < j < |ps| ==> !(ps[i].event == event && ps[j].event == event)
    ensures Times(ps, event) <= 1
  {
    if ps != [] {
      var n := |ps| - 1;
      TimesAtMostOne(ps[..n], event);
      TimesPosted(ps[..n], event);
      if PostedIn(ps[..n], event) {
        var j :| 0 <= j < n && ps[..n][j].event == event;
        assert ps[j].event == event;
      }
    }
  }

  /** The postings for a payment are those of its event. */
  lemma {:induction false} PostingsForTimes(ps: seq<Posting>, payment: Text, event: nat)
    requires forall j :: 0 <= j < |ps| ==> (ps[j].request.paymentId == payment <==> ps[j].event == event)
    ensures |PostingsFor(ps, payment)| == Times(ps, event)
    ensures forall j :: 0 <= j < |PostingsFor(ps, payment)| ==>
      PostingsFor(ps, payment)[j] in ps && PostingsFor(ps, payment)[j].event == event
  {
    if ps != [] { PostingsForTimes(ps[..|ps| - 1], payment, event); }
  }

  /** n pairs of rows: each the debit and the credit of the payment's amount, sharing one transaction. */
  predicate Pairs(entries: seq<Ledger.Entry>, n: nat, payment: nat, p: Payment) {
    |entries| == 2 * n && forall j :: 0 <= j < n ==> MovementAt(entries, 2 * j, payment, p)
  }

  /** A payment's entries are one pair for each time its event was posted. */
  lemma PairsPosted(cfg: Config, s: State, payment: nat)
    requires ContentOk(cfg.topic, s) && payment in s.api.payments
    ensures payment in s.box.created
    ensures Pairs(TB.OfPayment(s.books.entries, Uuid(payment)), Times(s.books.postings, s.box.created[payment]),
                  payment, s.api.payments[payment])
  {
    var ps, p := s.books.postings, s.api.payments[payment];
    PostingsOfPayment(cfg, s, payment);
    var event := s.box.created[payment];
    PostingsForTimes(ps, Uuid(payment), event);
    EntriesOfPayment(ps, Uuid(payment));
    var mine := PostingsFor(ps, Uuid(payment));
    FlattenLength(mine);
    forall j | 0 <= j < |mine| ensures MovementAt(Flatten(mine), 2 * j, payment, p) {
      PostingInEntries(mine, j);
      assert mine[j] in ps;
      assert PostingOk(s.box.events, mine[j]);
      PostingIsMovement(s, payment, mine[j]);
      MovementShift(Flatten(mine), 2 * j, EntriesOf(mine[j]), payment, p);
    }
  }

  /** Two rows, the debit and the credit, of the payment's amount and sharing one transaction. */
  predicate ExactlyOnePair(entries: seq<Ledger.Entry>, payment: nat, p: Payment) {
    |entries| == 2 && MovementAt(entries, 0, payment, p)
  }

  lemma OnePair(entries: seq<Ledger.Entry>, payment: nat, p: Payment)
    requires Pairs(entries, 1, payment, p)
    ensures ExactlyOnePair(entries, payment, p)
  {
    assert MovementAt(entries, 2 * 0, payment, p);
  }

  /** The entries of a payment in a state where the payment's event was posted at most once. */
  lemma ZeroOrOnePair(cfg: Config, s: State, payment: nat)
    requires ContentOk(cfg.topic, s) && payment in s.api.payments && payment in s.box.created
    requires var ps := s.books.postings; var event := s.box.created[payment];
      forall i, j :: 0 <= i < j < |ps| ==> !(ps[i].event == event && ps[j].event == event)
    ensures var es := TB.OfPayment(s.books.entries, Uuid(payment));
      if Recorded(s.books, s.box.created[payment]) then ExactlyOnePair(es, payment, s.api.payments[payment])
      else es == []
  {
    PairsPosted(cfg, s, payment);
    TimesPosted(s.books.postings, s.box.created[payment]);
    TimesAtMostOne(s.books.postings, s.box.created[payment]);
    var es := TB.OfPayment(s.books.entries, Uuid(payment));
    if Recorded(s.books, s.box.created[payment]) { OnePair(es, payment, s.api.payments[payment]); }
  }

  /** Exactly-once effect: under every schedule of duplicates, redeliveries and replays, a payment whose dedup row
      retention never removed has no ledger entries, or exactly one debit and one credit sharing a transaction. */
  lemma ExactlyOnceEffect(cfg: Config, partitions: nat, schedule: seq<Label>, payment: nat)
    requires payment in Reached(cfg, partitions, schedule).api.payments
    ensures payment in Reached(cfg, partitions, schedule).box.created
    ensures var s := Reached(cfg, partitions, schedule); var es := TB.OfPayment(s.books.entries, Uuid(payment));
      s.box.created[payment] !in s.books.purged ==> es == [] || ExactlyOnePair(es, payment, s.api.payments[payment])
  {
    var s := Reached(cfg, partitions, schedule);
    ReachedInv(cfg, partitions, schedule);
    ReachedOnceUnlessPurged(cfg, partitions, schedule);
    PostingsOfPayment(cfg, s, payment);
    if s.box.created[payment] !in s.books.purged { ZeroOrOnePair(cfg, s, payment); }
  }

  /** Timed exactly-once: the same for every payment when retention runs, provided every delivery is timely. */
  lemma TimedExactlyOnce(cfg: Config, partitions: nat, schedule: seq<Label>, payment: nat)
    requires payment in Reached(cfg, partitions, schedule).api.payments && TimelyRun(cfg, partitions, schedule)
    ensures var s := Reached(cfg, partitions, schedule); var es := TB.OfPayment(s.books.entries, Uuid(payment));
      es == [] || ExactlyOnePair(es, payment, s.api.payments[payment])
  {
    var s := Reached(cfg, partitions, schedule);
    ReachedInv(cfg, partitions, schedule);
    ReachedWhileRetained(cfg, partitions, schedule);
    PostingsOfPayment(cfg, s, payment);
    ZeroOrOnePair(cfg, s, payment);
  }

  // ----- when an event is posted again

  /** The step commits a ledger transaction that posts the event. */
  ghost predicate Posts(cfg: Config, s: State, l: Label, event: nat) {
    l.Consume? && l.step.Post? && Enabled(cfg, s, l) && l.step.outcome.TookEffect() &&
    HeldMovement(s.bus, l.partition).value.0 == event && event !in s.books.consumed
  }

  /** The same after retention removed the event's dedup row. */
  ghost predicate PostsAgain(cfg: Config, s: State, l: Label, event: nat) {
    Posts(cfg, s, l, event) && event in s.books.purged
  }

  /** In any state, whatever was posted before, a step posts an event once more exactly when it is a ledger
      transaction that takes effect for that event while its dedup row is not there. */
  lemma SecondPairExactly(cfg: Config, s: State, l: Label, event: nat)
    ensures Times(Step(cfg, s, l).books.postings, event) ==
            Times(s.books.postings, event) + (if Posts(cfg, s, l, event) then 1 else 0)
  {
    if Enabled(cfg, s, l) {
      match l
      case Client(c, request) => ClientFrame(s, c, request);
      case Publish(p, call) => PublisherFrame(cfg, s, p, call);
      case Consume(k, step) =>
        ConsumerPosts(cfg, s, k, step);
        if step.Post? {
          PostTimes(s.books, HeldPosting(s, k, step.transaction, step.debitId, step.creditId), s.now, event);
        }
      case Operate(o, command) => OperatorFrame(cfg, s, o, command);
      case _ =>
    }
  }

  lemma PostTimes(b: Books, p: Posting, now: int, event: nat)
    ensures Times(PostOnce(b, p, now).postings, event) ==
            Times(b.postings, event) + (if p.event !in b.consumed && p.event == event then 1 else 0)
  {
    assert (b.postings + [p])[..|b.postings|] == b.postings;
  }

  /** Some step of the run posted the event after retention removed its dedup row. */
  ghost predicate PostedAgain(cfg: Config, partitions: nat, schedule: seq<Label>, event: nat) {
    exists i :: 0 <= i < |schedule| && PostsAgainAt(cfg, partitions, schedule, i, event)
  }

  ghost predicate PostsAgainAt(cfg: Config, partitions: nat, schedule: seq<Label>, i: nat, event: nat)
    requires i < |schedule|
  {
    PostsAgain(cfg, Reached(cfg, partitions, schedule[..i]), schedule[i], event)
  }

  lemma PostedAgainGrows(cfg: Config, partitions: nat, schedule: seq<Label>, event: nat)
    requires schedule != []
    ensures PostedAgain(cfg, partitions, schedule, event) <==>
      var n := |schedule| - 1;
      PostedAgain(cfg, partitions, schedule[..n], event) || PostsAgainAt(cfg, partitions, schedule, n, event)
  {
    var n := |schedule| - 1;
    forall i | 0 <= i < n
      ensures PostsAgainAt(cfg, partitions, schedule[..n], i, event) <==>
        PostsAgainAt(cfg, partitions, schedule, i, event)
    {
      assert schedule[..n][..i] == schedule[..i];
    }
  }

  lemma {:induction false} MoreThanOnceExactly(cfg: Config, partitions: nat, schedule: seq<Label>, event: nat)
    ensures Times(Reached(cfg, partitions, schedule).books.postings, event) > 1 <==>
      PostedAgain(cfg, partitions, schedule, event)
  {
    if schedule != [] {
      var n := |schedule| - 1;
      var s := Reached(cfg, partitions, schedule[..n]);
      MoreThanOnceExactly(cfg, partitions, schedule[..n], event);
      ReachedOnceUnlessPurged(cfg, partitions, schedule[..n]);
      PostedAgainGrows(cfg, partitions, schedule, event);
      SecondPairExactly(cfg, s, schedule[n], event);
      TimesPosted(s.books.postings, event);
    }
  }

  /** Over a whole run: a payment ends with more than one pair of entries exactly when some ledger transaction of its
      event took effect after retention removed the event's dedup row, and without a new one. */
  lemma MorePairsExactly(cfg: Config, partitions: nat, schedule: seq<Label>, payment: nat)
    requires payment in Reached(cfg, partitions, schedule).api.payments
    ensures payment in Reached(cfg, partitions, schedule).box.created
    ensures var s := Reached(cfg, partitions, schedule);
      |TB.OfPayment(s.books.entries, Uuid(payment))| > 2 <==>
        PostedAgain(cfg, partitions, schedule, s.box.created[payment])
  {
    var s := Reached(cfg, partitions, schedule);
    ReachedInv(cfg, partitions, schedule);
    PairsPosted(cfg, s, payment);
    MoreThanOnceExactly(cfg, partitions, schedule, s.box.created[payment]);
  }
}
