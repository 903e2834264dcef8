/** The books of every reachable state: the chart of accounts, postings on the right accounts, and the trial balance. */
module Conservation {
  import opened Messages
  import opened System
  import opened Delivery
  import opened TrialBalance
  import Ledger

  // ----- accounts

  /** The row the ledger uses for a name and a currency. */
  ghost predicate AccountIs(accounts: seq<Ledger.Account>, id: nat, name: string, currency: string,
        normal: Ledger.Direction)
  {
    exists i :: 0 <= i < |accounts| && accounts[i] == Ledger.Account(id, name, currency, normal)
  }

  /** Ids and (name, currency) pairs are unique, every id was generated, and the two names have their sides. */
  ghost predicate ChartOk(b: Books) {
    && (forall i, j :: 0 <= i < j < |b.accounts| ==>
          b.accounts[i].id != b.accounts[j].id &&
          (b.accounts[i].name != b.accounts[j].name || b.accounts[i].currency != b.accounts[j].currency))
    && (forall i :: 0 <= i < |b.accounts| ==> b.accounts[i].id in b.ids && SideOk(b.accounts[i]))
  }

  predicate SideOk(a: Ledger.Account) {
    || (a.name == Ledger.CASH && a.normal == Ledger.Debit)
    || (a.name == Ledger.PAYABLE && a.normal == Ledger.Credit)
  }

  lemma NamesDiffer()
    ensures Ledger.CASH != Ledger.PAYABLE
  {
  }

  /** A posting debits the cash account and credits the payable account of its currency. */
  ghost predicate PostingAccountsOk(accounts: seq<Ledger.Account>, p: Posting) {
    && AccountIs(accounts, p.cash, Ledger.CASH, p.request.currency, Ledger.Debit)
    && AccountIs(accounts, p.payable, Ledger.PAYABLE, p.request.currency, Ledger.Credit)
  }

  /** The accounts a consumer has ensured so far are those of the held movement's currency. */
  ghost predicate StageOk(accounts: seq<Ledger.Account>, bus: Bus, k: nat) {
    Handles(bus, k) && HeldMovement(bus, k).Some? ==>
      var currency := HeldMovement(bus, k).value.1.currency;
      match bus.partitions[k].consumer.stage
      case Start => true
      case CashReady(cash) => AccountIs(accounts, cash, Ledger.CASH, currency, Ledger.Debit)
      case BothReady(cash, payable) =>
        AccountIs(accounts, cash, Ledger.CASH, currency, Ledger.Debit) &&
          AccountIs(accounts, payable, Ledger.PAYABLE, currency, Ledger.Credit)
  }

  ghost predicate ChartInv(bus: Bus, b: Books) {
    && ChartOk(b)
    && (forall j :: 0 <= j < |b.postings| ==> PostingAccountsOk(b.accounts, b.postings[j]))
    && (forall k :: 0 <= k < |bus.partitions| ==> StageOk(b.accounts, bus, k))
  }

  lemma AccountIsGrows(a: seq<Ledger.Account>, a': seq<Ledger.Account>, id: nat, name: string, currency: string,
        normal: Ledger.Direction)
    requires a <= a' && AccountIs(a, id, name, currency, normal)
    ensures AccountIs(a', id, name, currency, normal)
  {
  }

  /** `EnsureAccount` returns the one row of the name and currency, creating it if it is missing. */
  lemma EnsureGives(b: Books, name: string, currency: string, normal: Ledger.Direction, id: nat)
    requires ChartOk(b) && id !in b.ids
    requires (name == Ledger.CASH && normal == Ledger.Debit) || (name == Ledger.PAYABLE && normal == Ledger.Credit)
    ensures var (b', account) := EnsureAccount(b, name, currency, normal, id);
      ChartOk(b') && b.accounts <= b'.accounts && AccountIs(b'.accounts, account, name, currency, normal)
  {
    NamesDiffer();
    var (b', account) := EnsureAccount(b, name, currency, normal, id);
    var i := AccountIndex(b.accounts, name, currency);
    if i >= 0 {
      assert SideOk(b.accounts[i]);
      assert b'.accounts[i] == Ledger.Account(account, name, currency, normal);
    } else {
      assert b'.accounts[|b.accounts|] == Ledger.Account(account, name, currency, normal);
    }
  }

  /** Growing charts keep postings and stages that did not change. */
  lemma ChartGrows(bus: Bus, b: Books, bus': Bus, b': Books, k: nat)
    requires ChartInv(bus, b) && ChartOk(b') && b.accounts <= b'.accounts && b'.postings == b.postings
    requires |bus'.partitions| == |bus.partitions|
    requires forall j :: 0 <= j < |bus.partitions| && j != k ==> SameHold(bus, bus', j)
    requires k < |bus.partitions| ==> StageOk(b'.accounts, bus', k)
    ensures ChartInv(bus', b')
  {
    forall j | 0 <= j < |b'.postings| ensures PostingAccountsOk(b'.accounts, b'.postings[j]) {
      var p := b.postings[j];
      assert PostingAccountsOk(b.accounts, p);
      AccountIsGrows(b.accounts, b'.accounts, p.cash, Ledger.CASH, p.request.currency, Ledger.Debit);
      AccountIsGrows(b.accounts, b'.accounts, p.payable, Ledger.PAYABLE, p.request.currency, Ledger.Credit);
    }
    forall j | 0 <= j < |bus'.partitions| ensures StageOk(b'.accounts, bus', j) {
      if j != k {
        assert SameHold(bus, bus', j);
        StageGrows(b.accounts, b'.accounts, bus, bus', j);
      }
    }
  }

  /** The consumer of the partition holds the same message in the same local state, or nothing. */
  ghost predicate SameHold(bus: Bus, bus': Bus, k: nat) {
    k < |bus.partitions| && k < |bus'.partitions| &&
    (Handles(bus', k) ==>
      Handles(bus, k) && Held(bus', k) == Held(bus, k) && bus'.partitions[k].consumer == bus.partitions[k].consumer)
  }

  lemma StageGrows(a: seq<Ledger.Account>, a': seq<Ledger.Account>, bus: Bus, bus': Bus, k: nat)
    requires a <= a' && StageOk(a, bus, k) && SameHold(bus, bus', k)
    ensures StageOk(a', bus', k)
  {
  }

  // ----- each step keeps the chart

  lemma AppendHolds(topic: string, events: map<nat, Event>, bus: Bus, to: nat, m: Message, copies: nat)
    requires BusOk(topic, events, bus) && to < |bus.partitions|
    ensures forall k :: 0 <= k < |bus.partitions| ==> SameHold(bus, AppendTo(bus, to, m, copies), k)
  {
  }

  lemma HeldUnchanged(bus: Bus, k: nat, c: Consumer)
    requires Current(bus, k)
    ensures Current(SetConsumer(bus, k, c), k) && Held(SetConsumer(bus, k, c), k) == Held(bus, k)
    ensures HeldMovement(SetConsumer(bus, k, c), k) == HeldMovement(bus, k)
  {
  }

  /** One EnsureAccount call of the consumer of partition k, moving to consumer state c'. */
  lemma EnsuredChart(bus: Bus, b: Books, b': Books, k: nat, name: string, currency: string, normal: Ledger.Direction,
        id: nat, c': Consumer)
    requires ChartInv(bus, b) && Current(bus, k) && id !in b.ids
    requires (name == Ledger.CASH && normal == Ledger.Debit) || (name == Ledger.PAYABLE && normal == Ledger.Credit)
    requires b' == b || b' == EnsureAccount(b, name, currency, normal, id).0
    requires StageOk(b'.accounts, SetConsumer(bus, k, c'), k)
    ensures ChartInv(SetConsumer(bus, k, c'), b')
  {
    EnsureGives(b, name, currency, normal, id);
    EnsureQuiet(b, name, currency, normal, id);
    ChartGrows(bus, b, SetConsumer(bus, k, c'), b', k);
  }

  lemma EnsureCashChart(cfg: Config, s: State, k: nat, call: ConsumerCall)
    requires ChartInv(s.bus, s.books) && ConsumerEnabled(s, k, call) && call.EnsureCash?
    ensures var s' := ConsumerStep(cfg, s, k, call); ChartInv(s'.bus, s'.books)
  {
    var s' := ConsumerStep(cfg, s, k, call);
    var currency := HeldMovement(s.bus, k).value.1.currency;
    var c' := s'.bus.partitions[k].consumer;
    HeldUnchanged(s.bus, k, c');
    EnsureGives(s.books, Ledger.CASH, currency, Ledger.Debit, call.id);
    EnsuredChart(s.bus, s.books, s'.books, k, Ledger.CASH, currency, Ledger.Debit, call.id, c');
  }

  lemma EnsurePayableChart(cfg: Config, s: State, k: nat, call: ConsumerCall)
    requires ChartInv(s.bus, s.books) && ConsumerEnabled(s, k, call) && call.EnsurePayable?
    ensures var s' := ConsumerStep(cfg, s, k, call); ChartInv(s'.bus, s'.books)
  {
    var s' := ConsumerStep(cfg, s, k, call);
    var currency := HeldMovement(s.bus, k).value.1.currency;
    var c' := s'.bus.partitions[k].consumer;
    assert StageOk(s.books.accounts, s.bus, k);
    HeldUnchanged(s.bus, k, c');
    EnsureGives(s.books, Ledger.PAYABLE, currency, Ledger.Credit, call.id);
    AccountIsGrows(s.books.accounts, s'.books.accounts, s.bus.partitions[k].consumer.stage.cash, Ledger.CASH, currency,
      Ledger.Debit);
    EnsuredChart(s.bus, s.books, s'.books, k, Ledger.PAYABLE, currency, Ledger.Credit, call.id, c');
  }

  lemma PostChart(cfg: Config, s: State, k: nat, call: ConsumerCall)
    requires ChartInv(s.bus, s.books) && ConsumerEnabled(s, k, call) && call.Post?
    ensures var s' := ConsumerStep(cfg, s, k, call); ChartInv(s'.bus, s'.books)
  {
    var s' := ConsumerStep(cfg, s, k, call);
    assert StageOk(s.books.accounts, s.bus, k);
    var p := HeldPosting(s, k, call.transaction, call.debitId, call.creditId);
    assert PostingAccountsOk(s.books.accounts, p);
    var c' := s'.bus.partitions[k].consumer;
    assert s'.bus == SetConsumer(s.bus, k, c');
    HeldUnchanged(s.bus, k, c');
    ChartGrows(s.bus, s.books, s'.bus, s.books, k);
    PostingAdded(s'.bus, s.books, s'.books, p);
  }

  lemma PostingAdded(bus: Bus, b: Books, b': Books, p: Posting)
    requires ChartInv(bus, b) && PostingAccountsOk(b.accounts, p)
    requires b'.accounts == b.accounts && b.ids <= b'.ids &&
      (b'.postings == b.postings || b'.postings == b.postings + [p])
    ensures ChartInv(bus, b')
  {
  }

  lemma ConsumerQuietChart(cfg: Config, s: State, k: nat, call: ConsumerCall)
    requires ChartInv(s.bus, s.books) && ConsumerEnabled(s, k, call) && !call.EnsureCash? && !call.EnsurePayable? &&
      !call.Post?
    ensures var s' := ConsumerStep(cfg, s, k, call); ChartInv(s'.bus, s'.books)
  {
    var s' := ConsumerStep(cfg, s, k, call);
    ConsumerBooksQuiet(cfg, s, k, call);
    QuietStage(cfg, s, k, call);
    ChartGrows(s.bus, s.books, s'.bus, s'.books, k);
  }

  lemma QuietStage(cfg: Config, s: State, k: nat, call: ConsumerCall)
    requires ConsumerEnabled(s, k, call) && !call.EnsureCash? && !call.EnsurePayable? && !call.Post?
    ensures var bus' := ConsumerStep(cfg, s, k, call).bus;
      k < |s.bus.partitions| && |bus'.partitions| == |s.bus.partitions| &&
      (bus'.partitions[k].consumer.Handling? ==> bus'.partitions[k].consumer.stage == Start) &&
      forall j :: 0 <= j < |s.bus.partitions| && j != k ==> SameHold(s.bus, bus', j)
  {
  }

  lemma StepChart(cfg: Config, s: State, l: Label)
    requires ChartInv(s.bus, s.books) && ContentOk(cfg.topic, s)
    ensures var s' := Step(cfg, s, l); ChartInv(s'.bus, s'.books)
  {
    if Enabled(cfg, s, l) {
      match l
      case Tick(_) =>
      case Client(c, request) => ClientFrame(s, c, request);
      case Publish(p, call) => PublisherFrame(cfg, s, p, call); PublisherChart(cfg, s, p, call);
      case Consume(k, step) => ConsumerChart(cfg, s, k, step);
      case Operate(o, command) => OperatorFrame(cfg, s, o, command); OperatorChart(cfg, s, o, command);
      case Purge(_, batch) => PurgeChart(s, batch);
      case Produce(to, m) =>
        AppendHolds(cfg.topic, s.box.events, s.bus, to, m, 1);
        ChartGrows(s.bus, s.books, AppendTo(s.bus, to, m, 1), s.books, |s.bus.partitions|);
    }
  }

  lemma PurgeChart(s: State, batch: PurgeCall)
    requires ChartInv(s.bus, s.books)
    ensures var s' := PurgeStep(s, batch); ChartInv(s'.bus, s'.books)
  {
  }

  lemma PublisherChart(cfg: Config, s: State, p: nat, call: PublisherCall)
    requires ChartInv(s.bus, s.books) && ContentOk(cfg.topic, s) && PublisherEnabled(s, p, call)
    ensures ChartInv(PublisherStep(cfg, s, p, call).bus, s.books)
  {
    if call.Write? {
      var m := EventMessage(cfg.topic, s.box.publishers[p].queue[0], call.trace);
      AppendHolds(cfg.topic, s.box.events, s.bus, call.to, m, call.copies);
      ChartGrows(s.bus, s.books, AppendTo(s.bus, call.to, m, call.copies), s.books, |s.bus.partitions|);
    }
  }

  lemma OperatorChart(cfg: Config, s: State, o: nat, call: OperatorCall)
    requires ChartInv(s.bus, s.books) && ContentOk(cfg.topic, s) && OperatorEnabled(s, o, call)
    ensures ChartInv(OperatorStep(cfg, s, o, call).bus, s.books)
  {
    if call.Republish? {
      var op := s.audit.operators[o];
      var m := DeadLetter.ReplayMessage(op.record, cfg.topic, call.at, op.audit);
      AppendHolds(cfg.topic, s.box.events, s.bus, call.to, m, call.copies);
      ChartGrows(s.bus, s.books, AppendTo(s.bus, call.to, m, call.copies), s.books, |s.bus.partitions|);
    }
  }

  lemma ConsumerChart(cfg: Config, s: State, k: nat, call: ConsumerCall)
    requires ChartInv(s.bus, s.books) && ConsumerEnabled(s, k, call)
    ensures var s' := ConsumerStep(cfg, s, k, call); ChartInv(s'.bus, s'.books)
  {
    if call.EnsureCash? { EnsureCashChart(cfg, s, k, call); }
    else if call.EnsurePayable? { EnsurePayableChart(cfg, s, k, call); }
    else if call.Post? { PostChart(cfg, s, k, call); }
    else { ConsumerQuietChart(cfg, s, k, call); }
  }

  lemma {:induction false} ReachedChart(cfg: Config, partitions: nat, schedule: seq<Label>)
    ensures var s := Reached(cfg, partitions, schedule); ChartInv(s.bus, s.books)
  {
    if schedule != [] {
      var n := |schedule| - 1;
      ReachedChart(cfg, partitions, schedule[..n]);
      ReachedInv(cfg, partitions, schedule[..n]);
      StepChart(cfg, Reached(cfg, partitions, schedule[..n]), schedule[n]);
    }
  }

  // ----- trial balance in every reachable state

  lemma PairByTransaction(entries: seq<Ledger.Entry>, a: Ledger.Entry, b: Ledger.Entry, t: nat)
    requires a.transaction == b.transaction
    ensures ByTransaction(entries + [a, b], t) ==
      ByTransaction(entries, t) + (if a.transaction == t then [a, b] else [])
  {
    var es := entries + [a, b];
    assert es[..|es| - 1] == entries + [a];
    assert (entries + [a])[..|entries|] == entries;
    assert ByTransaction(entries, t) + [a, b] == ByTransaction(entries, t) + [a] + [b];
  }

  lemma PairNet(entries: seq<Ledger.Entry>, a: Ledger.Entry, b: Ledger.Entry, c: string)
    ensures Ledger.Net(entries + [a, b], c) == Ledger.Net(entries, c) + Ledger.Signed(a, c) + Ledger.Signed(b, c)
  {
    var es := entries + [a, b];
    assert es[..|es| - 1] == entries + [a];
    assert (entries + [a])[..|entries|] == entries;
  }

  lemma {:induction false} PostedTransactionsBalance(ps: seq<Posting>, t: nat, c: string)
    ensures Ledger.Net(ByTransaction(Flatten(ps), t), c) == 0
  {
    if ps != [] {
      var n := |ps| - 1;
      PostedTransactionsBalance(ps[..n], t, c);
      var pair := EntriesOf(ps[n]);
      assert pair == [pair[0], pair[1]];
      PairByTransaction(Flatten(ps[..n]), pair[0], pair[1], t);
      var before := ByTransaction(Flatten(ps[..n]), t);
      PairNet(before, pair[0], pair[1], c);
      assert before + [] == before;
    }
  }

  lemma {:induction false} PostedEntriesRefer(accounts: seq<Ledger.Account>, ps: seq<Posting>)
    requires forall j :: 0 <= j < |ps| ==> PostingAccountsOk(accounts, ps[j])
    ensures Refers(accounts, Flatten(ps))
  {
    if ps != [] {
      var n := |ps| - 1;
      PostedEntriesRefer(accounts, ps[..n]);
      assert PostingAccountsOk(accounts, ps[n]);
    }
  }

  /** Trial balance: in every reachable state, including those with accounts that have no entries, the listed
      debit-normal and credit-normal balances agree in every currency. */
  lemma ReachedTrialBalance(cfg: Config, partitions: nat, schedule: seq<Label>, c: string)
    ensures var b := Reached(cfg, partitions, schedule).books;
      SumBalances(b.accounts, b.entries, Ledger.Debit, c) == SumBalances(b.accounts, b.entries, Ledger.Credit, c)
  {
    ReachedInv(cfg, partitions, schedule);
    ReachedChart(cfg, partitions, schedule);
    var b := Reached(cfg, partitions, schedule).books;
    PostedEntriesRefer(b.accounts, b.postings);
    forall t, d ensures Ledger.Net(ByTransaction(b.entries, t), d) == 0 { PostedTransactionsBalance(b.postings, t, d); }
    forall i | 0 <= i < |b.accounts|
      ensures b.accounts[i].normal == Ledger.Debit || b.accounts[i].normal == Ledger.Credit
    {
      assert SideOk(b.accounts[i]);
    }
    TrialBalances(b.accounts, b.entries, c);
  }
}
