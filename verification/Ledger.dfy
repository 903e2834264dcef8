/** The ledger service: validation, the balance check, and the two entries of a payment. */
module Ledger {
  import opened Common
  import opened Messages

  /** `Direction` is a string in the program; any other text is an unknown direction. */
  datatype Direction = Debit | Credit | Unknown(text: string)

  datatype Account = Account(id: nat, name: string, currency: string, normal: Direction)

  datatype Entry = Entry(
    id: nat, transaction: nat, account: nat, direction: Direction,
    amount: int, currency: string, referenceType: string, referenceId: Text)

  datatype Check = Balanced | ErrUnbalanced | ErrValidation

  const CASH: string := "finflow_cash"
  const PAYABLE: string := "merchant_payable"
  const REF_PAYMENT: string := "payment"

  predicate ValidEntry(e: Entry) {
    e.amount > 0 && (e.direction == Debit || e.direction == Credit) && IsCurrency(e.currency)
  }

  /** What one entry adds to debits minus credits in currency c. */
  function Signed(e: Entry, c: string): (n: int) {
    if e.currency != c then 0
    else match e.direction
      case Debit => e.amount
      case Credit => -e.amount
      case Unknown(_) => 0
  }

  /** Debits minus credits in currency c, over the integers. */
  function Net(entries: seq<Entry>, c: string): (n: int) {
    if entries == [] then 0 else Net(entries[..|entries| - 1], c) + Signed(entries[|entries| - 1], c)
  }

  /** Positive amounts, debits and credits only, currencies of three upper-case letters. */
  predicate AllGood(entries: seq<Entry>) {
    forall i :: 0 <= i < |entries| ==>
      && entries[i].amount > 0 && (entries[i].direction == Debit || entries[i].direction == Credit)
      && |entries[i].currency| == 3 && forall j :: 0 <= j < 3 ==> 'A' <= entries[i].currency[j] <= 'Z'
  }

  lemma GoodExactly(entries: seq<Entry>)
    ensures AllGood(entries) <==> forall i :: 0 <= i < |entries| ==> ValidEntry(entries[i])
  {
  }

  /** What the check is for. */
  ghost predicate TrulyBalanced(entries: seq<Entry>) {
    |entries| >= 2 && AllGood(entries) && forall c :: Net(entries, c) == 0
  }

  /** What the check accepts: nets that vanish modulo 2^64. */
  ghost predicate Accepted(entries: seq<Entry>) {
    |entries| >= 2 && AllGood(entries) && forall c :: Net(entries, c) % 0x1_0000_0000_0000_0000 == 0
  }

  ghost function Verdict(entries: seq<Entry>): (check: Check) {
    if |entries| < 2 then ErrUnbalanced
    else if exists i :: 0 <= i < |entries| && !ValidEntry(entries[i]) then ErrValidation
    else if Accepted(entries) then Balanced
    else ErrUnbalanced
  }

  /** The running totals after some entries: wrapped nets, and zero net for currencies not seen. */
  ghost predicate Tracks(totals: map<string, int>, entries: seq<Entry>) {
    && (forall c :: c in totals ==> totals[c] == Wrap64(Net(entries, c)))
    && (forall c :: c !in totals ==> Net(entries, c) == 0)
  }

  function AddTo(totals: map<string, int>, e: Entry): (after: map<string, int>) {
    var before := if e.currency in totals then totals[e.currency] else 0;
    totals[e.currency := Wrap64(if e.direction == Debit then before + e.amount else before - e.amount)]
  }

  lemma TracksNext(totals: map<string, int>, entries: seq<Entry>, i: nat)
    requires i < |entries| && ValidEntry(entries[i]) && Tracks(totals, entries[..i])
    ensures Tracks(AddTo(totals, entries[i]), entries[..i + 1])
  {
    var e := entries[i];
    assert entries[..i + 1][..i] == entries[..i];
    forall c ensures Net(entries[..i + 1], c) == Net(entries[..i], c) + Signed(e, c) {}
    WrapAdd(Net(entries[..i], e.currency), Signed(e, e.currency));
    WrapIdentity(0);
  }

  lemma TracksVerdict(totals: map<string, int>, entries: seq<Entry>)
    requires |entries| >= 2 && (forall i :: 0 <= i < |entries| ==> ValidEntry(entries[i])) && Tracks(totals, entries)
    ensures Accepted(entries) <==> forall c :: c in totals ==> totals[c] == 0
  {
    GoodExactly(entries);
  }

  /** `ValidateBalanced`: one int64 total per currency. */
  method ValidateBalanced(entries: seq<Entry>) returns (check: Check)
    ensures check == Verdict(entries)
    ensures check == Balanced <==> Accepted(entries)
    ensures check == ErrValidation <==> |entries| >= 2 && !AllGood(entries)
  {
    GoodExactly(entries);
    if |entries| < 2 { return ErrUnbalanced; }
    var totals: map<string, int> := map[];
    for i := 0 to |entries|
      invariant forall j :: 0 <= j < i ==> ValidEntry(entries[j])
      invariant Tracks(totals, entries[..i])
    {
      var e := entries[i];
      if e.amount <= 0 || !(e.direction == Debit || e.direction == Credit) || !IsCurrency(e.currency) {
        assert !ValidEntry(entries[i]);
        return ErrValidation;
      }
      TracksNext(totals, entries, i);
      totals := AddTo(totals, e);
    }
    assert entries[..|entries|] == entries;
    TracksVerdict(totals, entries);
    var pending := totals.Keys;
    while pending != {}
      invariant pending <= totals.Keys
      invariant forall c :: c in totals && c !in pending ==> totals[c] == 0
    {
      var c :| c in pending;
      if totals[c] != 0 { return ErrUnbalanced; }
      pending := pending - {c};
    }
    return Balanced;
  }

  // ----- when the wrapping check is the real one

  ghost predicate NetsFit(entries: seq<Entry>) {
    forall c :: -TWO_64 < Net(entries, c) < TWO_64
  }

  /** The check is exact whenever no currency is out by 2^64 or more. */
  lemma ExactWhenNetsFit(entries: seq<Entry>)
    requires NetsFit(entries)
    ensures Accepted(entries) <==> TrulyBalanced(entries)
  {
  }

  /** An accepted transaction is balanced exactly when its nets fit. */
  lemma AcceptedIsBalancedExactly(entries: seq<Entry>)
    requires Accepted(entries)
    ensures TrulyBalanced(entries) <==> NetsFit(entries)
  {
  }

  /** Two int64 amounts cannot be out by 2^64, so every two-entry transaction is judged exactly. */
  lemma TwoEntriesExact(entries: seq<Entry>)
    requires |entries| == 2 && IsInt64(entries[0].amount) && IsInt64(entries[1].amount)
    ensures Accepted(entries) <==> TrulyBalanced(entries)
  {
    GoodExactly(entries);
    if Accepted(entries) {
      forall c ensures -TWO_64 < Net(entries, c) < TWO_64 {
        assert Net(entries, c) == Net(entries[..1][..0], c) + Signed(entries[0], c) + Signed(entries[1], c);
        assert ValidEntry(entries[0]) && ValidEntry(entries[1]);
      }
      ExactWhenNetsFit(entries);
    }
  }

  function BigDebit(amount: int): (e: Entry) { Entry(0, 0, 0, Debit, amount, "USD", REF_PAYMENT, EMPTY) }

  /** Three debits whose total is exactly 2^64 are accepted: the bound is tight. */
  lemma ThreeEntriesWrap()
    ensures var es := [BigDebit(MAX_INT64), BigDebit(MAX_INT64), BigDebit(2)];
      Accepted(es) && !TrulyBalanced(es) && Net(es, "USD") == TWO_64
  {
    var es := [BigDebit(MAX_INT64), BigDebit(MAX_INT64), BigDebit(2)];
    forall c ensures Net(es, c) == if c == "USD" then TWO_64 else 0 {
      assert es[..2][..1] == es[..1] && es[..1][..0] == [];
      assert Net(es[..1], c) == Signed(es[0], c);
      assert Net(es[..2], c) == Signed(es[0], c) + Signed(es[1], c);
    }
    assert Net(es, "USD") == TWO_64;
  }

  // ----- the verdict does not depend on the order of entries

  lemma {:induction false} NetWithout(entries: seq<Entry>, i: nat, c: string)
    requires i < |entries|
    ensures Net(entries, c) == Net(entries[..i] + entries[i + 1..], c) + Signed(entries[i], c)
  {
    var n := |entries| - 1;
    if i == n {
      assert entries[..i] + entries[i + 1..] == entries[..n];
    } else {
      var rest := entries[..i] + entries[i + 1..];
      NetWithout(entries[..n], i, c);
      assert rest[..|rest| - 1] == entries[..n][..i] + entries[..n][i + 1..];
    }
  }

  lemma {:induction false} NetOfPermutation(a: seq<Entry>, b: seq<Entry>, c: string)
    requires multiset(a) == multiset(b)
    ensures Net(a, c) == Net(b, c)
  {
    if a == [] {
      assert |multiset(b)| == 0;
    } else {
      var n := |a| - 1;
      var i := Place(a, b);
      RemoveOne(a, n);
      RemoveOne(b, i);
      NetOfPermutation(a[..n], b[..i] + b[i + 1..], c);
      NetWithout(b, i, c);
    }
  }

  /** Where the last entry of one order stands in the other. */
  lemma Place(a: seq<Entry>, b: seq<Entry>) returns (i: nat)
    requires multiset(a) == multiset(b) && a != []
    ensures i < |b| && b[i] == a[|a| - 1]
  {
    assert a[|a| - 1] in multiset(b);
    i :| 0 <= i < |b| && b[i] == a[|a| - 1];
  }

  lemma RemoveOne(s: seq<Entry>, i: nat)
    requires i < |s|
    ensures multiset(s[..i] + s[i + 1..]) == multiset(s) - multiset{s[i]}
    ensures i == |s| - 1 ==> s[..i] + s[i + 1..] == s[..i]
  {
    assert s == s[..i] + [s[i]] + s[i + 1..];
  }

  lemma SameMembers(a: seq<Entry>, b: seq<Entry>)
    requires multiset(a) == multiset(b)
    ensures |a| == |b|
    ensures (forall i :: 0 <= i < |a| ==> ValidEntry(a[i])) ==> (forall j :: 0 <= j < |b| ==> ValidEntry(b[j]))
  {
    assert |a| == |multiset(a)| && |b| == |multiset(b)|;
    forall j | 0 <= j < |b| ensures b[j] in a {
      assert b[j] in multiset(b);
    }
  }

  lemma OrderIrrelevant(a: seq<Entry>, b: seq<Entry>)
    requires multiset(a) == multiset(b)
    ensures Verdict(a) == Verdict(b)
  {
    GoodExactly(a);
    GoodExactly(b);
    SameMembers(a, b);
    SameMembers(b, a);
    forall c ensures Net(a, c) == Net(b, c) { NetOfPermutation(a, b, c); }
  }

  // ----- the movement of one payment

  datatype Request = Request(paymentId: Text, amount: int, currency: string)

  predicate ValidMovement(r: Request) {
    r.paymentId != EMPTY && r.amount > 0 && IsCurrency(r.currency)
  }

  function Normalise(r: Request): (normal: Request) {
    Request(TrimText(r.paymentId), r.amount, NormalCurrency(r.currency))
  }

  /** The debit of cash and the credit of the merchant's account, sharing one transaction id. */
  function Movement(r: Request, cash: nat, payable: nat, transaction: nat, debitId: nat, creditId: nat)
    : (entries: seq<Entry>)
  {
    [Entry(debitId, transaction, cash, Debit, r.amount, r.currency, REF_PAYMENT, r.paymentId),
     Entry(creditId, transaction, payable, Credit, r.amount, r.currency, REF_PAYMENT, r.paymentId)]
  }

  /** The check inside `buildPaymentMovement` never fails on a valid request. */
  lemma MovementBalances(r: Request, cash: nat, payable: nat, transaction: nat, debitId: nat, creditId: nat)
    requires ValidMovement(r)
    ensures TrulyBalanced(Movement(r, cash, payable, transaction, debitId, creditId))
    ensures Verdict(Movement(r, cash, payable, transaction, debitId, creditId)) == Balanced
  {
    var es := Movement(r, cash, payable, transaction, debitId, creditId);
    forall c ensures Net(es, c) == 0 {
      assert Net(es, c) == Net(es[..1][..0], c) + Signed(es[0], c) + Signed(es[1], c);
    }
  }
}
