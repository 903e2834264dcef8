/** Balances as the group-by query computes them, and the trial balance. */
module TrialBalance {
  import opened Common
  import opened Messages
  import opened Ledger

  /** What one entry contributes to one account: the LEFT JOIN and the CASE of the query. */
  function Contribution(a: Account, e: Entry): (n: int) {
    if e.account != a.id then 0
    else if e.direction == a.normal then e.amount
    else -e.amount
  }

  /** COALESCE(SUM(...), 0): an account without entries has balance 0. */
  function BalanceOf(a: Account, entries: seq<Entry>): (balance: int) {
    if entries == [] then 0
    else BalanceOf(a, entries[..|entries| - 1]) + Contribution(a, entries[|entries| - 1])
  }

  datatype Balance = Balance(account: nat, name: string, currency: string, amount: int)

  /** `ListBalances`: scans one row per account; a sum that is no int64 fails the scan. */
  method ListBalances(accounts: seq<Account>, entries: seq<Entry>) returns (result: Option<seq<Balance>>)
    ensures result.Some? <==> forall i :: 0 <= i < |accounts| ==> IsInt64(BalanceOf(accounts[i], entries))
    ensures result.Some? ==>
      && |result.value| == |accounts|
      && forall i :: 0 <= i < |accounts| ==>
           result.value[i] == Balance(accounts[i].id, accounts[i].name, accounts[i].currency,
             BalanceOf(accounts[i], entries))
  {
    var balances: seq<Balance> := [];
    for i := 0 to |accounts|
      invariant |balances| == i
      invariant forall j :: 0 <= j < i ==> IsInt64(BalanceOf(accounts[j], entries))
      invariant forall j :: 0 <= j < i ==>
        balances[j] == Balance(accounts[j].id, accounts[j].name, accounts[j].currency, BalanceOf(accounts[j], entries))
    {
      var a := accounts[i];
      var sum := BalanceOf(a, entries);
      if !IsInt64(sum) { return None; }
      balances := balances + [Balance(a.id, a.name, a.currency, sum)];
    }
    return Some(balances);
  }

  /** Sum of the listed balances of the accounts with one normal side and one currency. */
  function SumBalances(accounts: seq<Account>, entries: seq<Entry>, side: Direction, c: string): (total: int) {
    if accounts == [] then 0
    else
      var a := accounts[|accounts| - 1];
      SumBalances(accounts[..|accounts| - 1], entries, side, c) +
      (if a.normal == side && a.currency == c then BalanceOf(a, entries) else 0)
  }

  function ByTransaction(entries: seq<Entry>, t: nat): (es: seq<Entry>) {
    if entries == [] then []
    else
      var rest := ByTransaction(entries[..|entries| - 1], t);
      if entries[|entries| - 1].transaction == t then rest + [entries[|entries| - 1]] else rest
  }

  function Others(entries: seq<Entry>, t: nat): (r: seq<Entry>)
    ensures |r| <= |entries|
  {
    if entries == [] then []
    else
      var rest := Others(entries[..|entries| - 1], t);
      if entries[|entries| - 1].transaction == t then rest else rest + [entries[|entries| - 1]]
  }

  ghost predicate AccountsOk(accounts: seq<Account>) {
    && (forall i, j :: 0 <= i < j < |accounts| ==> accounts[i].id != accounts[j].id)
    && (forall i :: 0 <= i < |accounts| ==> accounts[i].normal == Debit || accounts[i].normal == Credit)
  }

  /** The foreign key holds, and an entry is in the currency of its account. */
  ghost predicate Refers(accounts: seq<Account>, entries: seq<Entry>) {
    forall k :: 0 <= k < |entries| ==>
      && (entries[k].direction == Debit || entries[k].direction == Credit)
      && exists i :: 0 <= i < |accounts| &&
           accounts[i].id == entries[k].account && accounts[i].currency == entries[k].currency
  }

  ghost predicate EachTransactionBalanced(entries: seq<Entry>) {
    forall t, c :: Net(ByTransaction(entries, t), c) == 0
  }

  // ----- a sum over all entries from sums per transaction

  lemma {:induction false} NetSplits(entries: seq<Entry>, t: nat, c: string)
    ensures Net(entries, c) == Net(ByTransaction(entries, t), c) + Net(Others(entries, t), c)
  {
    if entries != [] {
      var n := |entries| - 1;
      NetSplits(entries[..n], t, c);
      var mine, rest := ByTransaction(entries[..n], t), Others(entries[..n], t);
      assert (mine + [entries[n]])[..|mine|] == mine;
      assert (rest + [entries[n]])[..|rest|] == rest;
    }
  }

  lemma {:induction false} OthersKeep(entries: seq<Entry>, t: nat, u: nat)
    ensures ByTransaction(Others(entries, t), u) == if u == t then [] else ByTransaction(entries, u)
  {
    if entries != [] {
      var n := |entries| - 1;
      OthersKeep(entries[..n], t, u);
      var rest := Others(entries[..n], t);
      assert (rest + [entries[n]])[..|rest|] == rest;
    }
  }

  lemma {:induction false} NetVanishes(entries: seq<Entry>, c: string)
    requires EachTransactionBalanced(entries)
    ensures Net(entries, c) == 0
    decreases |entries|
  {
    if entries != [] {
      var t := entries[|entries| - 1].transaction;
      NetSplits(entries, t, c);
      forall u, d ensures Net(ByTransaction(Others(entries, t), u), d) == 0 {
        OthersKeep(entries, t, u);
      }
      NetVanishes(Others(entries, t), c);
    }
  }

  // ----- one entry moves exactly one account

  lemma {:induction false} SumSnoc(accounts: seq<Account>, entries: seq<Entry>, side: Direction, c: string)
    requires entries != []
    ensures SumBalances(accounts, entries, side, c) ==
            SumBalances(accounts, entries[..|entries| - 1], side, c) +
            SumContribution(accounts, entries[|entries| - 1], side, c)
  {
    if accounts != [] { SumSnoc(accounts[..|accounts| - 1], entries, side, c); }
  }

  function SumContribution(accounts: seq<Account>, e: Entry, side: Direction, c: string): (total: int) {
    if accounts == [] then 0
    else
      var a := accounts[|accounts| - 1];
      SumContribution(accounts[..|accounts| - 1], e, side, c) +
      (if a.normal == side && a.currency == c then Contribution(a, e) else 0)
  }

  lemma {:induction false} NoContribution(accounts: seq<Account>, e: Entry, side: Direction, c: string)
    requires forall i :: 0 <= i < |accounts| ==> accounts[i].id != e.account
    ensures SumContribution(accounts, e, side, c) == 0
  {
    if accounts != [] { NoContribution(accounts[..|accounts| - 1], e, side, c); }
  }

  lemma {:induction false} OneContribution(accounts: seq<Account>, e: Entry, i: nat, side: Direction, c: string)
    requires AccountsOk(accounts) && i < |accounts| && accounts[i].id == e.account
    ensures SumContribution(accounts, e, side, c) ==
            if accounts[i].normal == side && accounts[i].currency == c then Contribution(accounts[i], e) else 0
  {
    var n := |accounts| - 1;
    if i == n {
      NoContribution(accounts[..n], e, side, c);
    } else {
      OneContribution(accounts[..n], e, i, side, c);
    }
  }

  /** The two sides differ by the net of all entries. */
  lemma {:induction false} SidesDifferByNet(accounts: seq<Account>, entries: seq<Entry>, c: string)
    requires AccountsOk(accounts) && Refers(accounts, entries)
    ensures SumBalances(accounts, entries, Debit, c) - SumBalances(accounts, entries, Credit, c) == Net(entries, c)
  {
    if entries == [] {
      NoEntries(accounts, Debit, c);
      NoEntries(accounts, Credit, c);
    } else {
      var n := |entries| - 1;
      SidesDifferByNet(accounts, entries[..n], c);
      SumSnoc(accounts, entries, Debit, c);
      SumSnoc(accounts, entries, Credit, c);
      var e := entries[n];
      var i :| 0 <= i < |accounts| && accounts[i].id == e.account && accounts[i].currency == e.currency;
      OneContribution(accounts, e, i, Debit, c);
      OneContribution(accounts, e, i, Credit, c);
    }
  }

  lemma {:induction false} NoEntries(accounts: seq<Account>, side: Direction, c: string)
    ensures SumBalances(accounts, [], side, c) == 0
  {
    if accounts != [] { NoEntries(accounts[..|accounts| - 1], side, c); }
  }

  /** Trial balance: the debit-normal and the credit-normal balances agree in every currency. */
  lemma TrialBalances(accounts: seq<Account>, entries: seq<Entry>, c: string)
    requires AccountsOk(accounts) && Refers(accounts, entries) && EachTransactionBalanced(entries)
    ensures SumBalances(accounts, entries, Debit, c) == SumBalances(accounts, entries, Credit, c)
  {
    SidesDifferByNet(accounts, entries, c);
    NetVanishes(entries, c);
  }

  // ----- entries of one payment

  /** The rows `ListEntriesByReference` selects for a payment, in table order. */
  function OfPayment(entries: seq<Entry>, payment: Text): (es: seq<Entry>) {
    if entries == [] then []
    else
      var rest := OfPayment(entries[..|entries| - 1], payment);
      var e := entries[|entries| - 1];
      if e.referenceType == REF_PAYMENT && e.referenceId == payment then rest + [e] else rest
  }
}
