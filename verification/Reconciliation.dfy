/** Conservation: the cash balance of a currency is the sum of the payments that have been posted, and at
    quiescence of all payments. */
module Reconciliation {
  import opened Common
  import opened Messages
  import opened System
  import opened History
  import opened Delivery
  import opened ExactlyOnce
  import opened TrialBalance
  import opened Conservation
  import Ledger

  /** The listed balance of the cash account of a currency; 0 if the account does not exist yet. */
  function CashBalance(b: Books, c: string): (balance: int) {
    var i := AccountIndex(b.accounts, Ledger.CASH, c);
    if i < 0 then 0 else BalanceOf(b.accounts[i], b.entries)
  }

  function InCurrency(r: Ledger.Request, c: string): (n: int) { if r.currency == c then r.amount else 0 }

  function PostedTotal(ps: seq<Posting>, c: string): (total: int) {
    if ps == [] then 0 else PostedTotal(ps[..|ps| - 1], c) + InCurrency(ps[|ps| - 1].request, c)
  }

  // ----- the balance as a sum over postings

  lemma BalancePair(a: Ledger.Account, entries: seq<Ledger.Entry>, x: Ledger.Entry, y: Ledger.Entry)
    ensures BalanceOf(a, entries + [x, y]) == BalanceOf(a, entries) + Contribution(a, x) + Contribution(a, y)
  {
    var es := entries + [x, y];
    assert es[..|es| - 1] == entries + [x];
    assert (entries + [x])[..|entries|] == entries;
  }

  /** A posting moves the cash account of its own currency, and no other cash account. */
  lemma PostingMovesCash(b: Books, i: nat, p: Posting, c: string)
    requires ChartOk(b) && i < |b.accounts| && b.accounts[i].name == Ledger.CASH && b.accounts[i].currency == c
    requires PostingAccountsOk(b.accounts, p)
    ensures var a := b.accounts[i];
      Contribution(a, EntriesOf(p)[0]) + Contribution(a, EntriesOf(p)[1]) == InCurrency(p.request, c)
  {
  }

  lemma {:induction false} BalanceIsPostedTotal(b: Books, i: nat, ps: seq<Posting>, c: string)
    requires ChartOk(b) && i < |b.accounts| && b.accounts[i].name == Ledger.CASH && b.accounts[i].currency == c
    requires forall j :: 0 <= j < |ps| ==> PostingAccountsOk(b.accounts, ps[j])
    ensures BalanceOf(b.accounts[i], Flatten(ps)) == PostedTotal(ps, c)
  {
    if ps != [] {
      var n := |ps| - 1;
      BalanceIsPostedTotal(b, i, ps[..n], c);
      var pair := EntriesOf(ps[n]);
      assert pair == [pair[0], pair[1]];
      BalancePair(b.accounts[i], Flatten(ps[..n]), pair[0], pair[1]);
      PostingMovesCash(b, i, ps[n], c);
    }
  }

  lemma {:induction false} NothingPosted(accounts: seq<Ledger.Account>, ps: seq<Posting>, c: string)
    requires AccountIndex(accounts, Ledger.CASH, c) < 0
    requires forall j :: 0 <= j < |ps| ==> PostingAccountsOk(accounts, ps[j])
    ensures PostedTotal(ps, c) == 0
  {
    if ps != [] {
      NothingPosted(accounts, ps[..|ps| - 1], c);
      assert PostingAccountsOk(accounts, ps[|ps| - 1]);
    }
  }

  lemma CashIsPosted(cfg: Config, s: State, c: string)
    requires ContentOk(cfg.topic, s) && ChartInv(s.bus, s.books)
    ensures CashBalance(s.books, c) == PostedTotal(s.books.postings, c)
  {
    var i := AccountIndex(s.books.accounts, Ledger.CASH, c);
    if i < 0 {
      NothingPosted(s.books.accounts, s.books.postings, c);
    } else {
      BalanceIsPostedTotal(s.books, i, s.books.postings, c);
    }
  }

  // ----- sums over sets of payments

  function AmountIn(p: Payment, c: string): (n: int) { if p.currency == c then p.amount else 0 }

  ghost function Sum(ids: set<nat>, f: nat -> int): (n: int) {
    if ids == {} then 0
    else
      var id :| id in ids;
      f(id) + Sum(ids - {id}, f)
  }

  /** The sum does not depend on the order in which the set is taken apart. */
  lemma {:induction false} SumWithout(ids: set<nat>, id: nat, f: nat -> int)
    requires id in ids
    ensures Sum(ids, f) == f(id) + Sum(ids - {id}, f)
    decreases |ids|
  {
    var x :| x in ids && Sum(ids, f) == f(x) + Sum(ids - {x}, f);
    if x != id {
      SumWithout(ids - {x}, id, f);
      SumWithout(ids - {id}, x, f);
      assert ids - {x} - {id} == ids - {id} - {x};
    }
  }

  /** A sum of larger terms is larger, and equal exactly when all terms are. */
  lemma {:induction false} SumCompares(ids: set<nat>, f: nat -> int, g: nat -> int)
    requires forall id :: id in ids ==> f(id) >= g(id)
    ensures Sum(ids, f) >= Sum(ids, g)
    ensures Sum(ids, f) == Sum(ids, g) <==> forall id :: id in ids ==> f(id) == g(id)
  {
    if ids != {} {
      var id :| id in ids;
      SumWithout(ids, id, f);
      SumWithout(ids, id, g);
      SumCompares(ids - {id}, f, g);
    }
  }

  /** Terms that vanish outside a part sum up to the part's sum. */
  lemma {:induction false} SumOfPart(ids: set<nat>, part: set<nat>, f: nat -> int, g: nat -> int)
    requires part <= ids && forall id :: id in ids ==> g(id) == if id in part then f(id) else 0
    ensures Sum(ids, g) == Sum(part, f)
  {
    if ids != {} {
      var id :| id in ids;
      SumWithout(ids, id, g);
      SumOfPart(ids - {id}, part - {id}, f, g);
      if id in part { SumWithout(part, id, f); } else { assert part - {id} == part; }
    }
  }

  function Amounts(payments: map<nat, Payment>, c: string): (f: nat -> int) {
    id => if id in payments then AmountIn(payments[id], c) else 0
  }

  /** The sum of the amounts, in one currency, of some payments. */
  ghost function SumAmounts(payments: map<nat, Payment>, ids: set<nat>, c: string): (n: int)
    requires ids <= payments.Keys
  {
    Sum(ids, Amounts(payments, c))
  }

  /** The payments whose created event is among the postings. */
  ghost function PaidBy(s: State, ps: seq<Posting>): (ids: set<nat>)
    ensures ids <= s.api.payments.Keys
  {
    set p | p in s.api.payments && p in s.box.created && PostedIn(ps, s.box.created[p])
  }

  /** The payment a posting is for. */
  lemma PaymentOfPosting(cfg: Config, s: State, p: Posting) returns (payment: nat)
    requires ContentOk(cfg.topic, s) && PostingOk(s.box.events, p)
    ensures payment in s.api.payments && payment in s.box.created && s.box.created[payment] == p.event
    ensures p.request == Ledger.Request(Uuid(payment), s.api.payments[payment].amount, s.api.payments[payment].currency)
    ensures forall q :: q in s.api.payments && q in s.box.created && s.box.created[q] == p.event ==> q == payment
  {
    var e := s.box.events[p.event];
    assert EventOk(s.api.payments, s.box.created, p.event, e);
    payment := e.aggregateId.id;
    forall q | q in s.api.payments && q in s.box.created && s.box.created[q] == p.event ensures q == payment {
      assert CreatedEventOf(s.box, q, s.api.payments[q]);
    }
  }

  /** What a payment's postings amount to. */
  function PostedAmounts(s: State, ps: seq<Posting>, c: string): (f: nat -> int) {
    id => if id in s.api.payments && id in s.box.created
          then Times(ps, s.box.created[id]) * AmountIn(s.api.payments[id], c) else 0
  }

  lemma NothingPostedYet(s: State, c: string)
    ensures Sum(s.api.payments.Keys, PostedAmounts(s, [], c)) == 0
  {
    SumOfPart(s.api.payments.Keys, {}, Amounts(s.api.payments, c), PostedAmounts(s, [], c));
  }

  /** One more posting adds its payment's amount. */
  lemma PostedMore(s: State, ps: seq<Posting>, payment: nat, c: string)
    requires ps != [] && payment in s.api.payments && payment in s.box.created
    requires s.box.created[payment] == ps[|ps| - 1].event
    requires forall q :: q in s.api.payments && q in s.box.created && s.box.created[q] == ps[|ps| - 1].event ==>
      q == payment
    ensures Sum(s.api.payments.Keys, PostedAmounts(s, ps, c)) ==
            Sum(s.api.payments.Keys, PostedAmounts(s, ps[..|ps| - 1], c)) + AmountIn(s.api.payments[payment], c)
  {
    var keys, f, g := s.api.payments.Keys, PostedAmounts(s, ps, c), PostedAmounts(s, ps[..|ps| - 1], c);
    SumWithout(keys, payment, f);
    SumWithout(keys, payment, g);
    forall p | p in keys ensures f(p) == if p == payment then g(p) + AmountIn(s.api.payments[p], c) else g(p) {
      PostedMoreAt(s, ps, payment, p, c);
    }
    SumCompares(keys - {payment}, f, g);
  }

  lemma PostedMoreAt(s: State, ps: seq<Posting>, payment: nat, p: nat, c: string)
    requires ps != [] && payment in s.api.payments && payment in s.box.created && p in s.api.payments
    requires s.box.created[payment] == ps[|ps| - 1].event
    requires forall q :: q in s.api.payments && q in s.box.created && s.box.created[q] == ps[|ps| - 1].event ==>
      q == payment
    ensures PostedAmounts(s, ps, c)(p) ==
            PostedAmounts(s, ps[..|ps| - 1], c)(p) + (if p == payment then AmountIn(s.api.payments[p], c) else 0)
  {
    if p == payment { OneMore(Times(ps[..|ps| - 1], s.box.created[p]), AmountIn(s.api.payments[p], c)); }
  }

  lemma OneMore(n: nat, a: int)
    ensures (n + 1) * a == n * a + a
  {
  }

  /** The postings' total is the sum over the payments, each counted as often as it was posted. */
  lemma {:induction false} PostedIsPaid(cfg: Config, s: State, ps: seq<Posting>, c: string)
    requires ContentOk(cfg.topic, s)
    requires forall j :: 0 <= j < |ps| ==> PostingOk(s.box.events, ps[j])
    ensures PostedTotal(ps, c) == Sum(s.api.payments.Keys, PostedAmounts(s, ps, c))
  {
    if ps == [] {
      NothingPostedYet(s, c);
    } else {
      var n := |ps| - 1;
      PostedIsPaid(cfg, s, ps[..n], c);
      var payment := PaymentOfPosting(cfg, s, ps[n]);
      PostedMore(s, ps, payment, c);
    }
  }

  /** No payment of the currency was posted more than once. */
  ghost predicate PostedOnce(s: State, c: string) {
    forall p :: p in s.api.payments && p in s.box.created && s.api.payments[p].currency == c ==>
      Times(s.books.postings, s.box.created[p]) <= 1
  }

  /** The total is at least the sum of the payments that were posted, and equal exactly when none was posted twice. */
  lemma TotalCompares(cfg: Config, s: State, c: string)
    requires ContentOk(cfg.topic, s)
    ensures var total := PostedTotal(s.books.postings, c);
      var paid := SumAmounts(s.api.payments, PaidBy(s, s.books.postings), c);
      total >= paid && (total == paid <==> PostedOnce(s, c))
  {
    var ps, keys, part := s.books.postings, s.api.payments.Keys, PaidBy(s, s.books.postings);
    var f, g := PostedAmounts(s, ps, c), PaidAmounts(s, ps, c);
    PostedIsPaid(cfg, s, ps, c);
    SumOfPart(keys, part, Amounts(s.api.payments, c), g);
    forall p | p in keys
      ensures p in s.box.created && f(p) >= g(p)
      ensures f(p) == g(p) <==> s.api.payments[p].currency != c || Times(ps, s.box.created[p]) <= 1
    {
      assert CreatedEventOf(s.box, p, s.api.payments[p]) && PaymentOk(s.api.payments[p]);
      TimesPosted(ps, s.box.created[p]);
      OnceOrMore(Times(ps, s.box.created[p]), AmountIn(s.api.payments[p], c));
    }
    SumCompares(keys, f, g);
  }

  lemma OnceOrMore(n: nat, a: int)
    requires a >= 0
    ensures n * a >= if n > 0 then a else 0
    ensures n * a == (if n > 0 then a else 0) <==> a == 0 || n <= 1
  {
    if n > 1 { MulMono(2, n, a); }
  }

  ghost function PaidAmounts(s: State, ps: seq<Posting>, c: string): (f: nat -> int) {
    id => if id in PaidBy(s, ps) then Amounts(s.api.payments, c)(id) else 0
  }

  // ----- the theorems

  /** Events are posted at most once: no dedup row was removed, or every delivery was timely. */
  ghost predicate DeduplicationHolds(cfg: Config, partitions: nat, schedule: seq<Label>) {
    Reached(cfg, partitions, schedule).books.purged == {} || TimelyRun(cfg, partitions, schedule)
  }

  /** Some payment of the currency was posted again, after its dedup row was removed. */
  ghost predicate SomePostedAgain(cfg: Config, partitions: nat, schedule: seq<Label>, c: string) {
    var s := Reached(cfg, partitions, schedule);
    exists p :: p in s.api.payments && p in s.box.created && s.api.payments[p].currency == c &&
      PostedAgain(cfg, partitions, schedule, s.box.created[p])
  }

  lemma PostedOnceExactly(cfg: Config, partitions: nat, schedule: seq<Label>, c: string)
    ensures PostedOnce(Reached(cfg, partitions, schedule), c) <==> !SomePostedAgain(cfg, partitions, schedule, c)
  {
    var s := Reached(cfg, partitions, schedule);
    forall p | p in s.api.payments && p in s.box.created
      ensures Times(s.books.postings, s.box.created[p]) <= 1 <==>
        !PostedAgain(cfg, partitions, schedule, s.box.created[p])
    {
      MoreThanOnceExactly(cfg, partitions, schedule, s.box.created[p]);
    }
  }

  /** In every reachable state, whatever retention removed, the cash balance of a currency is at least the sum over the
      payments that have entries, and it is that sum exactly when no payment of the currency was posted again. */
  lemma CashExactly(cfg: Config, partitions: nat, schedule: seq<Label>, c: string)
    ensures var s := Reached(cfg, partitions, schedule);
      var paid := SumAmounts(s.api.payments, PaidBy(s, s.books.postings), c);
      && CashBalance(s.books, c) >= paid
      && (CashBalance(s.books, c) == paid <==> !SomePostedAgain(cfg, partitions, schedule, c))
  {
    var s := Reached(cfg, partitions, schedule);
    ReachedInv(cfg, partitions, schedule);
    ReachedChart(cfg, partitions, schedule);
    CashIsPosted(cfg, s, c);
    TotalCompares(cfg, s, c);
    PostedOnceExactly(cfg, partitions, schedule, c);
  }

  /** When events are posted at most once, none is posted again. */
  lemma DeduplicationMeansOnce(cfg: Config, partitions: nat, schedule: seq<Label>, event: nat)
    requires DeduplicationHolds(cfg, partitions, schedule)
    ensures !PostedAgain(cfg, partitions, schedule, event)
  {
    if TimelyRun(cfg, partitions, schedule) {
      ReachedWhileRetained(cfg, partitions, schedule);
    } else {
      ReachedOnceUnlessPurged(cfg, partitions, schedule);
    }
    TimesAtMostOne(Reached(cfg, partitions, schedule).books.postings, event);
    MoreThanOnceExactly(cfg, partitions, schedule, event);
  }

  /** The payments that were posted are those that have entries. */
  lemma PaidHaveEntries(cfg: Config, s: State, payment: nat)
    requires ContentOk(cfg.topic, s) && payment in s.api.payments
    ensures payment in PaidBy(s, s.books.postings) <==> OfPayment(s.books.entries, Uuid(payment)) != []
  {
    PairsPosted(cfg, s, payment);
    TimesPosted(s.books.postings, s.box.created[payment]);
  }

  /** In every reachable state of a run in which deduplication holds, the cash balance of a currency is the sum over the
      payments that have entries. */
  lemma CashIsPaidPayments(cfg: Config, partitions: nat, schedule: seq<Label>, c: string)
    requires DeduplicationHolds(cfg, partitions, schedule)
    ensures var s := Reached(cfg, partitions, schedule);
      CashBalance(s.books, c) == SumAmounts(s.api.payments, PaidBy(s, s.books.postings), c)
    ensures var s := Reached(cfg, partitions, schedule);
      forall p :: p in s.api.payments ==>
        (p in PaidBy(s, s.books.postings) <==> OfPayment(s.books.entries, Uuid(p)) != [])
  {
    var s := Reached(cfg, partitions, schedule);
    ReachedInv(cfg, partitions, schedule);
    CashExactly(cfg, partitions, schedule, c);
    forall event ensures !PostedAgain(cfg, partitions, schedule, event) {
      DeduplicationMeansOnce(cfg, partitions, schedule, event);
    }
    forall p | p in s.api.payments
      ensures p in PaidBy(s, s.books.postings) <==> OfPayment(s.books.entries, Uuid(p)) != []
    {
      PaidHaveEntries(cfg, s, p);
    }
  }

  /** Nothing is under way: created events are published (or already removed), offsets are committed, and there are no
      dead letters. */
  ghost predicate Quiescent(s: State) {
    && (forall p :: p in s.api.payments && p in s.box.created && s.box.created[p] in s.box.rows ==>
          s.box.rows[s.box.created[p]].status == Published)
    && (forall k :: 0 <= k < |s.bus.partitions| ==> s.bus.partitions[k].committed == |s.bus.partitions[k].log|)
    && s.bus.deadLetters == []
  }

  /** Conservation at quiescence: in every reachable state where nothing is under way, the cash balance of a currency
      equals the sum of all payment amounts in it exactly when no payment of the currency was posted again. */
  lemma ConservationExactly(cfg: Config, partitions: nat, schedule: seq<Label>, c: string)
    requires Quiescent(Reached(cfg, partitions, schedule))
    ensures var s := Reached(cfg, partitions, schedule);
      CashBalance(s.books, c) == SumAmounts(s.api.payments, s.api.payments.Keys, c) <==>
      !SomePostedAgain(cfg, partitions, schedule, c)
  {
    var s := Reached(cfg, partitions, schedule);
    CashExactly(cfg, partitions, schedule, c);
    forall p | p in s.api.payments ensures p in PaidBy(s, s.books.postings) {
      QuietPaymentIsPosted(cfg, partitions, schedule, p);
    }
    assert PaidBy(s, s.books.postings) == s.api.payments.Keys;
  }

  /** So it does whenever deduplication holds. */
  lemma ConservationAtQuiescence(cfg: Config, partitions: nat, schedule: seq<Label>, c: string)
    requires DeduplicationHolds(cfg, partitions, schedule) && Quiescent(Reached(cfg, partitions, schedule))
    ensures var s := Reached(cfg, partitions, schedule);
      CashBalance(s.books, c) == SumAmounts(s.api.payments, s.api.payments.Keys, c)
  {
    ConservationExactly(cfg, partitions, schedule, c);
    forall event ensures !PostedAgain(cfg, partitions, schedule, event) {
      DeduplicationMeansOnce(cfg, partitions, schedule, event);
    }
  }

  lemma QuietPaymentIsPosted(cfg: Config, partitions: nat, schedule: seq<Label>, payment: nat)
    requires var s := Reached(cfg, partitions, schedule); Quiescent(s) && payment in s.api.payments
    ensures var s := Reached(cfg, partitions, schedule); payment in PaidBy(s, s.books.postings)
  {
    var s := Reached(cfg, partitions, schedule);
    ReachedInv(cfg, partitions, schedule);
    assert CreatedEventOf(s.box, payment, s.api.payments[payment]);
    var id := s.box.created[payment];
    assert NotLost(cfg.topic, s, id);
    assert !UncommittedCopy(cfg.topic, s.bus, id, s.box.events[id]);
  }
}
