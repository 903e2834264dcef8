/** The ledger consumer as a program against the world: `Run` for one message, `handleWithRetry`, `HandleMessage`
    and the ledger service's `RecordPaymentMovementOnce`. */
module ConsumerProgram {
  import opened Common
  import opened Messages
  import opened DeadLetter
  import opened Wire
  import opened System
  import opened Delivery
  import opened Conservation
  import opened Observed
  import opened World
  import opened RetryLoop
  import Ledger

  // ----- where the consumer of partition k stands

  /** It holds message m at offset `offset`, in local state c. */
  predicate Holds(bus: Bus, k: nat, m: Message, offset: nat, c: Consumer) {
    Current(bus, k) && bus.partitions[k].committed == offset && Held(bus, k) == m && bus.partitions[k].consumer == c
  }

  predicate IdleAt(bus: Bus, k: nat, offset: nat) {
    k < |bus.partitions| && bus.partitions[k].committed == offset && bus.partitions[k].consumer == Idle
  }

  /** It is done with message m at offset `offset`, for better or worse. */
  predicate IdleOn(bus: Bus, k: nat, m: Message, offset: nat, committed: nat) {
    IdleAt(bus, k, committed) && offset < |bus.partitions[k].log| && bus.partitions[k].log[offset] == m
  }

  /** Other actors change nothing of that. */
  lemma HoldsUndisturbed(s: State, s': State, k: nat, m: Message, offset: nat, c: Consumer)
    requires Undisturbed(ConsumerActor(k), s, s') && Holds(s.bus, k, m, offset, c)
    ensures Holds(s'.bus, k, m, offset, c)
  {
  }

  method NewId(used: set<nat>) returns (id: nat)
    ensures id !in used
  {
    id := 0;
    var rest := used;
    while rest != {}
      invariant rest <= used
      invariant forall x :: x in used && x !in rest ==> x < id
    {
      var x :| x in rest;
      if x >= id { id := x + 1; }
      rest := rest - {x};
    }
  }

  // ----- the steps of a consumer, as its trace shows them

  /** A step the handler takes. */
  predicate InHandler(l: Label, k: nat) {
    l.Consume? && l.partition == k && (l.step.Decide? || l.step.EnsureCash? || l.step.EnsurePayable? || l.step.Post?)
  }

  /** A step that ends an attempt: a local verdict, a ledger call that reported an error, or the ledger transaction. */
  predicate EndsAttempt(l: Label) {
    l.Consume? &&
    match l.step
    case Decide => true
    case EnsureCash(_, outcome) => !outcome.Acked()
    case EnsurePayable(_, outcome) => !outcome.Acked()
    case Post(_, _, _, _) => true
    case _ => false
  }

  /** How many attempts a sequence of steps completes. */
  function Attempts(calls: seq<Label>): (n: nat) {
    if calls == [] then 0
    else Attempts(calls[..|calls| - 1]) + (if EndsAttempt(calls[|calls| - 1]) then 1 else 0)
  }

  /** The handler ran n times, and nothing else was done. */
  predicate HandlerRuns(calls: seq<Label>, k: nat, n: nat) {
    Attempts(calls) == n && forall i :: 0 <= i < |calls| ==> InHandler(calls[i], k)
  }

  /** One run of the handler: its last step ends the attempt, and no other does. */
  predicate OneRun(calls: seq<Label>, k: nat) {
    HandlerRuns(calls, k, 1) && EndsAttempt(calls[|calls| - 1])
  }

  lemma {:induction false} AttemptsAppend(a: seq<Label>, b: seq<Label>)
    ensures Attempts(a + b) == Attempts(a) + Attempts(b)
  {
    if b == [] {
      assert a + b == a;
    } else {
      var n := |b| - 1;
      AttemptsAppend(a, b[..n]);
      assert (a + b)[..|a + b| - 1] == a + b[..n];
    }
  }

  lemma RunsAppend(a: seq<Label>, b: seq<Label>, k: nat, m: nat, n: nat)
    requires HandlerRuns(a, k, m) && HandlerRuns(b, k, n)
    ensures HandlerRuns(a + b, k, m + n)
  {
    AttemptsAppend(a, b);
  }

  /** A call that does not end the attempt, before a run's last calls. */
  lemma RunExtends(l: Label, rest: seq<Label>, k: nat)
    requires InHandler(l, k) && !EndsAttempt(l) && OneRun(rest, k)
    ensures OneRun([l] + rest, k)
  {
    assert [l][..0] == [];
    AttemptsAppend([l], rest);
  }

  lemma SingleRun(l: Label, k: nat)
    requires InHandler(l, k) && EndsAttempt(l)
    ensures OneRun([l], k)
  {
    assert [l][..0] == [];
  }

  // ----- the calls; `call` is the step that was taken

  /** The consumer's own steps since `before` are those. */
  ghost predicate Took(before: seq<Label>, after: seq<Label>, k: nat, calls: seq<Label>) {
    Own(after, ConsumerActor(k)) == Own(before, ConsumerActor(k)) + calls
  }

  lemma TookBoth(before: seq<Label>, between: seq<Label>, after: seq<Label>, k: nat, first: seq<Label>,
        second: seq<Label>)
    requires Took(before, between, k, first) && Took(between, after, k, second)
    ensures Took(before, after, k, first + second)
  {
  }

  /** The local state after a ledger call: `next`, or what a failed attempt leaves. */
  function AfterLedger(failed: bool, attempt: int, maxAttempts: int, next: Consumer): (c: Consumer) {
    if failed then AfterFailure(Handling(attempt, Start), maxAttempts) else next
  }

  /** An attempt that ends without a database call. */
  method Conclude(w: World, k: nat, ghost m: Message, ghost offset: nat, attempt: int) returns (calls: seq<Label>)
    requires w.Valid() && Holds(w.st.bus, k, m, offset, Handling(attempt, Start)) && MovementOf(m) == None
    modifies w
    ensures w.Valid() && Took(old(w.trace), w.trace, k, calls) && OneRun(calls, k) && calls == [Consume(k, Decide)]
    ensures Holds(w.st.bus, k, m, offset, DecideLocally(w.cfg, Handling(attempt, Start), m))
  {
    SingleRun(Consume(k, Decide), k);
    w.Act(ConsumerActor(k), Consume(k, Decide));
    return [Consume(k, Decide)];
  }

  lemma StageAccounts(cfg: Config, partitions: nat, schedule: seq<Label>, k: nat)
    requires var s := Reached(cfg, partitions, schedule); Handles(s.bus, k)
    ensures var s := Reached(cfg, partitions, schedule); StageOk(s.books.accounts, s.bus, k)
  {
    ReachedChart(cfg, partitions, schedule);
  }

  method EnsureCashAccount(w: World, k: nat, ghost m: Message, ghost offset: nat, attempt: int)
    returns (account: nat, failed: bool, call: Label)
    requires w.Valid() && Holds(w.st.bus, k, m, offset, Handling(attempt, Start)) && MovementOf(m).Some?
    modifies w
    ensures w.Valid() && Took(old(w.trace), w.trace, k, [call])
    ensures InHandler(call, k) && call.step.EnsureCash? && (EndsAttempt(call) <==> failed)
    ensures Holds(w.st.bus, k, m, offset,
      AfterLedger(failed, attempt, w.cfg.maxAttempts, Handling(attempt, CashReady(account))))
    ensures !failed ==>
      AccountIs(w.st.books.accounts, account, "finflow_cash", MovementOf(m).value.1.currency, Ledger.Debit)
  {
    ghost var before := w.st;
    w.Interfere(ConsumerActor(k));
    HoldsUndisturbed(before, w.st, k, m, offset, Handling(attempt, Start));
    var id := NewId(w.st.books.ids);
    var outcome: Outcome := *;
    call := Consume(k, EnsureCash(id, outcome));
    ghost var row := CashLocal(w.cfg, w.st, k, id, outcome);
    w.Act(ConsumerActor(k), call);
    failed, account := !outcome.Acked(), 0;
    if !failed {
      StageAccounts(w.cfg, w.partitions, w.trace, k);
      account := w.st.bus.partitions[k].consumer.stage.cash;
    }
  }

  method EnsurePayableAccount(w: World, k: nat, ghost m: Message, ghost offset: nat, attempt: int, cash: nat)
    returns (account: nat, failed: bool, call: Label)
    requires w.Valid() && Holds(w.st.bus, k, m, offset, Handling(attempt, CashReady(cash))) && MovementOf(m).Some?
    modifies w
    ensures w.Valid() && Took(old(w.trace), w.trace, k, [call])
    ensures InHandler(call, k) && call.step.EnsurePayable? && (EndsAttempt(call) <==> failed)
    ensures Holds(w.st.bus, k, m, offset,
      AfterLedger(failed, attempt, w.cfg.maxAttempts, Handling(attempt, BothReady(cash, account))))
    ensures !failed ==>
      AccountIs(w.st.books.accounts, account, "merchant_payable", MovementOf(m).value.1.currency, Ledger.Credit)
  {
    ghost var before := w.st;
    w.Interfere(ConsumerActor(k));
    HoldsUndisturbed(before, w.st, k, m, offset, Handling(attempt, CashReady(cash)));
    var id := NewId(w.st.books.ids);
    var outcome: Outcome := *;
    call := Consume(k, EnsurePayable(id, outcome));
    ghost var row := PayableLocal(w.cfg, w.st, k, id, outcome);
    w.Act(ConsumerActor(k), call);
    failed, account := !outcome.Acked(), 0;
    if !failed {
      StageAccounts(w.cfg, w.partitions, w.trace, k);
      account := w.st.bus.partitions[k].consumer.stage.payable;
    }
  }

  /** The dedup row and the entries were committed together, or neither was. */
  predicate AllOrNothing(b: Books, b': Books, event: nat, entries: seq<Ledger.Entry>, now: int) {
    || (b'.consumed == b.consumed && b'.entries == b.entries)
    || (event !in b.consumed && b'.consumed == b.consumed[event := now] && b'.entries == b.entries + entries)
  }

  /** `CreateTransactionOnce` with the entries the service built. */
  method CreateTransactionOnce(w: World, k: nat, ghost m: Message, ghost offset: nat, attempt: int, cash: nat,
        payable: nat, eventId: nat, entries: seq<Ledger.Entry>, transaction: nat, debitId: nat, creditId: nat)
    returns (failed: bool, call: Label)
    requires w.Valid() && Holds(w.st.bus, k, m, offset, Handling(attempt, BothReady(cash, payable)))
    requires MovementOf(m).Some? && eventId == MovementOf(m).value.0
    requires entries == Ledger.Movement(MovementOf(m).value.1, cash, payable, transaction, debitId, creditId)
    requires {transaction, debitId, creditId} !! w.st.books.ids
    requires transaction != debitId && transaction != creditId && debitId != creditId
    modifies w
    ensures w.Valid() && Took(old(w.trace), w.trace, k, [call]) && InHandler(call, k) && call.step.Post?
    ensures Holds(w.st.bus, k, m, offset, AfterLedger(failed, attempt, w.cfg.maxAttempts, Settled))
    ensures AllOrNothing(old(w.st.books), w.st.books, eventId, entries, w.st.now)
    ensures !failed ==> eventId in w.st.books.consumed
  {
    var outcome: Outcome := *;
    call := Consume(k, Post(transaction, debitId, creditId, outcome));
    PostLocal(w.cfg, w.st, k, transaction, debitId, creditId, outcome);
    w.Act(ConsumerActor(k), call);
    failed := !outcome.Acked();
  }

  // ----- the ledger service

  /** A UUID, a payment id, a positive amount and a currency; texts trimmed and the currency in upper case. */
  predicate Normalised(eventId: Text, request: Ledger.Request, event: nat, r: Ledger.Request) {
    && eventId == Uuid(event) && IsTrimmed(r.paymentId, request.paymentId) && r.amount == request.amount
    && r.currency == Upper(Trim(request.currency))
    && r.paymentId != Str("") && r.amount > 0 && ThreeLetters(r.currency)
  }

  /** The checks of `RecordPaymentMovementOnce` and `buildPaymentMovement` that need no database. */
  method CheckRequest(eventId: Text, request: Ledger.Request) returns (accepted: Option<(nat, Ledger.Request)>)
    ensures accepted == Acceptable(eventId, request)
    ensures forall event: nat, r: Ledger.Request :: Normalised(eventId, request, event, r) <==>
      accepted == Some((event, r))
  {
    var id := TrimText(eventId);
    if id.Str? { return None; }
    var normal := Ledger.Normalise(request);
    if normal.paymentId == EMPTY || normal.amount <= 0 || !IsCurrency(normal.currency) { return None; }
    return Some((id.id, normal));
  }

  /** The event is consumed, and its movement is posted and in the ledger's rows. */
  ghost predicate PostedFor(b: Books, event: nat, r: Ledger.Request) {
    event in b.consumed && Posted(b, event, r) && Booked(b, r)
  }

  /** What is consumed under an event's id is that event's movement. */
  lemma ConsumedIsPosted(cfg: Config, partitions: nat, schedule: seq<Label>, k: nat, m: Message, offset: nat,
        c: Consumer)
    requires var s := Reached(cfg, partitions, schedule); Holds(s.bus, k, m, offset, c)
    requires MovementOf(m).Some? && MovementOf(m).value.0 in Reached(cfg, partitions, schedule).books.consumed
    ensures Posted(Reached(cfg, partitions, schedule).books, MovementOf(m).value.0, MovementOf(m).value.1)
  {
    var s := Reached(cfg, partitions, schedule);
    ReachedInv(cfg, partitions, schedule);
    HeldMovementOk(cfg.topic, s, k);
    RecordedIsPosted(s.box.events, s.books, MovementOf(m).value.0);
  }

  /** The entries with fresh identifiers, the balance check, and the transaction, which the check never prevents. The
      identifiers are generated after the others' last step, which stands for their uniqueness. */
  method PostMovement(w: World, k: nat, ghost m: Message, ghost offset: nat, attempt: int, cash: nat, payable: nat,
        id: nat, normal: Ledger.Request)
    returns (failed: bool, call: Label)
    requires w.Valid() && Holds(w.st.bus, k, m, offset, Handling(attempt, BothReady(cash, payable)))
    requires MovementOf(m) == Some((id, normal))
    modifies w
    ensures w.Valid() && Took(old(w.trace), w.trace, k, [call]) && InHandler(call, k) && call.step.Post?
    ensures Holds(w.st.bus, k, m, offset, AfterLedger(failed, attempt, w.cfg.maxAttempts, Settled))
    ensures !failed ==> PostedFor(w.st.books, id, normal)
  {
    ghost var before := w.st;
    w.Interfere(ConsumerActor(k));
    HoldsUndisturbed(before, w.st, k, m, offset, Handling(attempt, BothReady(cash, payable)));
    var transaction := NewId(w.st.books.ids);
    var debitId := NewId(w.st.books.ids + {transaction});
    var creditId := NewId(w.st.books.ids + {transaction, debitId});
    var entries := Ledger.Movement(normal, cash, payable, transaction, debitId, creditId);
    var check := Ledger.ValidateBalanced(entries);
    AcceptedIsValid(m);
    Ledger.MovementBalances(normal, cash, payable, transaction, debitId, creditId);
    if check != Ledger.Balanced { assert false; }
    failed, call := CreateTransactionOnce(w, k, m, offset, attempt, cash, payable,
                                          id, entries, transaction, debitId, creditId);
    if !failed {
      ConsumedIsPosted(w.cfg, w.partitions, w.trace, k, m, offset, Settled);
      PostedIsBooked(w.cfg, w.partitions, w.trace, id, normal);
    }
  }

  lemma AcceptedIsValid(m: Message)
    requires MovementOf(m).Some?
    ensures Ledger.ValidMovement(MovementOf(m).value.1)
  {
  }

  /** The payable account and the transaction, once the cash account is there. */
  method FinishMovement(w: World, k: nat, ghost m: Message, ghost offset: nat, attempt: int, cash: nat, id: nat,
        normal: Ledger.Request)
    returns (failed: bool, calls: seq<Label>)
    requires w.Valid() && Holds(w.st.bus, k, m, offset, Handling(attempt, CashReady(cash)))
    requires MovementOf(m) == Some((id, normal))
    modifies w
    ensures w.Valid() && Took(old(w.trace), w.trace, k, calls) && OneRun(calls, k)
    ensures Holds(w.st.bus, k, m, offset, AfterLedger(failed, attempt, w.cfg.maxAttempts, Settled))
    ensures !failed ==> PostedFor(w.st.books, id, normal)
  {
    var payable, payableFailed, ensure := EnsurePayableAccount(w, k, m, offset, attempt, cash);
    if payableFailed {
      SingleRun(ensure, k);
      return true, [ensure];
    }
    ghost var between := w.trace;
    var post: Label;
    failed, post := PostMovement(w, k, m, offset, attempt, cash, payable, id, normal);
    TookBoth(old(w.trace), between, w.trace, k, [ensure], [post]);
    SingleRun(post, k);
    RunExtends(ensure, [post], k);
    calls := [ensure] + [post];
  }

  method RecordPaymentMovementOnce(w: World, k: nat, ghost m: Message, ghost offset: nat, attempt: int, eventId: Text,
        request: Ledger.Request)
    returns (failed: bool, calls: seq<Label>)
    requires w.Valid() && Holds(w.st.bus, k, m, offset, Handling(attempt, Start))
    requires Read(m) == ToLedger(eventId, request)
    modifies w
    ensures w.Valid() && Took(old(w.trace), w.trace, k, calls) && OneRun(calls, k)
    ensures Holds(w.st.bus, k, m, offset, AfterLedger(failed, attempt, w.cfg.maxAttempts, Settled))
    ensures !failed ==> DoneWith(w.st.books, m)
    ensures !HasOrder(m) ==> failed && calls == [Consume(k, Decide)]
  {
    OrderExactly(m);
    var accepted := CheckRequest(eventId, request);
    if accepted == None {
      calls := Conclude(w, k, m, offset, attempt);
      return true, calls;
    }
    var cash, cashFailed, ensure := EnsureCashAccount(w, k, m, offset, attempt);
    if cashFailed {
      SingleRun(ensure, k);
      return true, [ensure];
    }
    ghost var between := w.trace;
    var rest: seq<Label>;
    failed, rest := FinishMovement(w, k, m, offset, attempt, cash, accepted.value.0, accepted.value.1);
    TookBoth(old(w.trace), between, w.trace, k, [ensure], rest);
    RunExtends(ensure, rest, k);
    calls := [ensure] + rest;
  }

  // ----- the consumer

  datatype Result = Handled | Transient | Permanent

  /** The local state each result leaves behind. */
  function AfterAttempt(r: Result, attempt: int, maxAttempts: int): (c: Consumer) {
    match r
    case Handled => Settled
    case Transient => AfterFailure(Handling(attempt, Start), maxAttempts)
    case Permanent => Broken(attempt)
  }

  /** A message is done with: it is none of the ledger's business, or what it orders is consumed and in the ledger. */
  ghost predicate DoneWith(b: Books, m: Message) {
    OtherEvent(m) || exists event, r :: Orders(m, event, r) && PostedFor(b, event, r)
  }

  /** `HandleMessage` and `handlePaymentCreated`. */
  method HandleMessage(w: World, k: nat, m: Message, ghost offset: nat, attempt: int)
    returns (r: Result, calls: seq<Label>)
    requires w.Valid() && Holds(w.st.bus, k, m, offset, Handling(attempt, Start))
    modifies w
    ensures w.Valid() && Took(old(w.trace), w.trace, k, calls) && OneRun(calls, k)
    ensures Holds(w.st.bus, k, m, offset, AfterAttempt(r, attempt, w.cfg.maxAttempts))
    ensures r.Permanent? <==> WithoutId(m) || Unreadable(m)
    ensures r.Handled? ==> DoneWith(w.st.books, m)
    ensures OtherEvent(m) ==> r.Handled?
    ensures !HasOrder(m) ==> calls == [Consume(k, Decide)]
  {
    ReadsAs(m);
    OrderExactly(m);
    var eventId := HeaderValue(m.headers, EVENT_ID);
    var eventType := HeaderValue(m.headers, EVENT_TYPE);
    if eventId == EMPTY {
      calls := Conclude(w, k, m, offset, attempt);
      return Permanent, calls;
    }
    if eventType != PAYMENT_CREATED {
      calls := Conclude(w, k, m, offset, attempt);
      return Handled, calls;
    }
    var request := Decode(m.value);
    if request == None {
      calls := Conclude(w, k, m, offset, attempt);
      return Permanent, calls;
    }
    var failed;
    failed, calls := RecordPaymentMovementOnce(w, k, m, offset, attempt, eventId, request.value);
    r := if failed then Transient else Handled;
  }

  /** How the retry loop ends: as its last attempt did, or cancelled during a wait. */
  datatype Retried = Ended(last: Result) | Cancelled

  /** A message without an id or with an unreadable body ends the first attempt; another event succeeds at once; the
      ledger's failures use all attempts. */
  ghost predicate EndsAs(m: Message, last: Result, attempts: int, max: int) {
    match last
    case Handled => HasOrder(m) || (OtherEvent(m) && attempts == 1)
    case Permanent => (WithoutId(m) || Unreadable(m)) && attempts == 1
    case Transient => AsksLedger(m) && attempts == max
  }

  /** Where the loop leaves the consumer, after `attempts` attempts of at most `max`. */
  ghost predicate RetryResult(bus: Bus, b: Books, k: nat, m: Message, offset: nat, r: Retried, attempts: int, max: int)
  {
    match r
    case Ended(last) =>
      && EndsAs(m, last, attempts, max)
      && Holds(bus, k, m, offset, if last.Handled? then Settled else Broken(attempts))
      && (last.Handled? ==> DoneWith(b, m))
    case Cancelled => IdleOn(bus, k, m, offset, offset) && AsksLedger(m) && attempts < max
  }

  /** The next run of the handler, after the steps `done` since `start`. */
  method RunAgain(w: World, k: nat, m: Message, ghost offset: nat, attempt: int, ghost start: seq<Label>,
        done: seq<Label>)
    returns (r: Result, calls: seq<Label>)
    requires w.Valid() && attempt >= 1 && Holds(w.st.bus, k, m, offset, Handling(attempt, Start))
    requires Took(start, w.trace, k, done) && HandlerRuns(done, k, attempt - 1)
    modifies w
    ensures w.Valid() && Took(start, w.trace, k, calls) && HandlerRuns(calls, k, attempt)
    ensures Holds(w.st.bus, k, m, offset, AfterAttempt(r, attempt, w.cfg.maxAttempts))
    ensures r.Permanent? <==> WithoutId(m) || Unreadable(m)
    ensures r.Handled? ==> DoneWith(w.st.books, m)
    ensures OtherEvent(m) ==> r.Handled?
  {
    ghost var before := w.trace;
    var more;
    r, more := HandleMessage(w, k, m, offset, attempt);
    TookBoth(start, before, w.trace, k, done, more);
    RunsAppend(done, more, k, attempt - 1, 1);
    calls := done + more;
  }

  /** The wait between two attempts: it runs out, or the context is cancelled and the process stops. */
  method Wait(w: World, k: nat, ghost m: Message, ghost offset: nat, attempt: int, ghost start: seq<Label>,
        ghost done: seq<Label>)
    returns (cancelled: bool)
    requires w.Valid() && Holds(w.st.bus, k, m, offset, Handling(attempt, Start)) && Took(start, w.trace, k, done)
    modifies w
    ensures w.Valid() && Took(start, w.trace, k, if cancelled then done + [Consume(k, ConsumerCrash)] else done)
    ensures if cancelled then IdleOn(w.st.bus, k, m, offset, offset)
            else Holds(w.st.bus, k, m, offset, Handling(attempt, Start))
  {
    ghost var before := w.st;
    w.Interfere(ConsumerActor(k));
    HoldsUndisturbed(before, w.st, k, m, offset, Handling(attempt, Start));
    cancelled := *;
    if cancelled { w.Act(ConsumerActor(k), Consume(k, ConsumerCrash)); }
  }

  /** n waits, the j-th of them the backoff after the j-th failure. */
  predicate BackoffWaits(waits: seq<int>, n: int, initial: int, max: int) {
    |waits| == n && forall j :: 0 <= j < n ==> waits[j] == Backoff(j + 1, initial, max)
  }

  lemma OneMoreWait(waits: seq<int>, n: nat, backoff: int, initial: int, max: int)
    requires BackoffWaits(waits, n, initial, max) && backoff == Backoff(n + 1, initial, max)
    ensures BackoffWaits(waits + [backoff], n + 1, initial, max)
    ensures NextBackoff(backoff, max) == Backoff(n + 2, initial, max)
  {
  }

  /** `handleWithRetry`: `calls` are the steps of its handler runs, and `waits` the timers it started. Only a transient
      failure is retried, up to the configured number of attempts; the return after the loop is unreachable. */
  method HandleWithRetry(w: World, k: nat, m: Message, ghost offset: nat, initial: int, max: int)
    returns (attempts: int, r: Retried, waits: seq<int>, calls: seq<Label>)
    requires w.Valid() && w.cfg.maxAttempts >= 1 && Holds(w.st.bus, k, m, offset, Handling(1, Start))
    modifies w
    ensures w.Valid() && 1 <= attempts <= w.cfg.maxAttempts
    ensures HandlerRuns(calls, k, attempts)
    ensures Took(old(w.trace), w.trace, k, if r.Cancelled? then calls + [Consume(k, ConsumerCrash)] else calls)
    ensures RetryResult(w.st.bus, w.st.books, k, m, offset, r, attempts, w.cfg.maxAttempts)
    ensures BackoffWaits(waits, if r.Cancelled? then attempts else attempts - 1, initial, max)
  {
    var backoff := initial;
    waits, calls := [], [];
    attempts := 1;
    while attempts <= w.cfg.maxAttempts
      invariant w.Valid() && 1 <= attempts <= w.cfg.maxAttempts
      invariant Took(old(w.trace), w.trace, k, calls) && HandlerRuns(calls, k, attempts - 1)
      invariant Holds(w.st.bus, k, m, offset, Handling(attempts, Start))
      invariant attempts > 1 ==> AsksLedger(m)
      invariant backoff == Backoff(attempts, initial, max) && BackoffWaits(waits, attempts - 1, initial, max)
      decreases w.cfg.maxAttempts - attempts
    {
      var result;
      result, calls := RunAgain(w, k, m, offset, attempts, old(w.trace), calls);
      if result.Handled? || result.Permanent? || attempts == w.cfg.maxAttempts {
        return attempts, Ended(result), waits, calls;
      }
      OneMoreWait(waits, attempts - 1, backoff, initial, max);
      waits := waits + [backoff];
      var cancelled := Wait(w, k, m, offset, attempts + 1, old(w.trace), calls);
      if cancelled { return attempts, Cancelled, waits, calls; }
      backoff := Wrap64(backoff * 2);
      if backoff > max { backoff := max; }
      attempts := attempts + 1;
    }
    assert false;
  }

  /** The record keeps the message with its place, the attempts, the cause and the time. */
  ghost predicate IsLetter(r: Record, m: Message, k: nat, offset: nat, attempts: int, cause: string, now: int) {
    Keeps(r, m, k, offset) && r.attempts == attempts && CutTo2048(r.failure, cause) && r.failedAt == now
  }

  /** `DeadLetterPublisher.Publish`. */
  method BuryMessage(w: World, k: nat, m: Message, offset: nat, attempts: int, cause: string)
    returns (failed: bool, call: Label)
    requires w.Valid() && Holds(w.st.bus, k, m, offset, Broken(attempts))
    modifies w
    ensures w.Valid() && Took(old(w.trace), w.trace, k, [call]) && IsBury(call, k, !failed)
    ensures if failed then IdleOn(w.st.bus, k, m, offset, offset) else Holds(w.st.bus, k, m, offset, Settled)
    ensures !failed ==> exists r :: r in w.st.bus.deadLetters && IsLetter(r, m, k, offset, attempts, cause, w.st.now)
  {
    ghost var before := w.st;
    w.Interfere(ConsumerActor(k));
    HoldsUndisturbed(before, w.st, k, m, offset, Broken(attempts));
    var record, envelope := BuildRecord(m, k, offset, cause, attempts, w.st.now);
    var extra := AnyNat();
    var acked: bool := *;
    var copies := if acked then extra + 1 else extra;
    ghost var n := |w.st.bus.deadLetters|;
    call := Consume(k, Bury(cause, copies, acked));
    w.Act(ConsumerActor(k), call);
    RecordKeeps(m, k, offset, cause, attempts, w.st.now);
    if acked { assert w.st.bus.deadLetters[n] == record && IsLetter(record, m, k, offset, attempts, cause, w.st.now); }
    failed := !acked;
  }

  predicate IsBury(l: Label, k: nat, acked: bool) {
    l.Consume? && l.partition == k && l.step.Bury? && l.step.acked == acked
  }

  predicate IsCommit(l: Label, k: nat, acked: bool) {
    l.Consume? && l.partition == k && l.step.Commit? && l.step.outcome.Acked() == acked
  }

  /** What the consumer has settled is done with. */
  lemma SettledIsDisposed(cfg: Config, partitions: nat, schedule: seq<Label>, k: nat, m: Message, offset: nat)
    requires Holds(Reached(cfg, partitions, schedule).bus, k, m, offset, Settled)
    ensures var s := Reached(cfg, partitions, schedule); Disposed(s.bus, s.books, m, k, offset)
  {
    ReachedInv(cfg, partitions, schedule);
    assert Passed(Reached(cfg, partitions, schedule).bus.partitions[k], offset);
  }

  method CommitOffset(w: World, k: nat, ghost m: Message, ghost offset: nat) returns (failed: bool, call: Label)
    requires w.Valid() && Holds(w.st.bus, k, m, offset, Settled)
    modifies w
    ensures w.Valid() && Took(old(w.trace), w.trace, k, [call]) && IsCommit(call, k, !failed)
    ensures Disposed(w.st.bus, w.st.books, m, k, offset)
    ensures IdleOn(w.st.bus, k, m, offset, offset + 1) || (failed && IdleOn(w.st.bus, k, m, offset, offset))
  {
    ghost var before := w.st;
    w.Interfere(ConsumerActor(k));
    HoldsUndisturbed(before, w.st, k, m, offset, Settled);
    SettledIsDisposed(w.cfg, w.partitions, w.trace, k, m, offset);
    ghost var settled := w.st;
    var outcome: Outcome := *;
    call := Consume(k, Commit(outcome));
    w.Act(ConsumerActor(k), call);
    DisposedStable(settled.bus, settled.books, w.st.bus, w.st.books, m, k, offset);
    failed := !outcome.Acked();
  }

  /** A context error ends the process without a dead letter. */
  method Abandon(w: World, k: nat, ghost m: Message, ghost offset: nat, attempts: int)
    requires w.Valid() && Holds(w.st.bus, k, m, offset, Broken(attempts))
    modifies w
    ensures w.Valid() && Took(old(w.trace), w.trace, k, [Consume(k, ConsumerCrash)])
    ensures IdleOn(w.st.bus, k, m, offset, offset) && w.st.bus.deadLetters == old(w.st.bus.deadLetters)
  {
    w.Act(ConsumerActor(k), Consume(k, ConsumerCrash));
  }

  /** The commit of a message that is done with, or a dead letter and its commit if the letter was acknowledged. */
  predicate Buried(calls: seq<Label>, k: nat, failed: bool) {
    || (failed && |calls| == 1 && IsBury(calls[0], k, false))
    || (|calls| == 2 && IsBury(calls[0], k, true) && IsCommit(calls[1], k, !failed))
  }

  /** What follows the handler in a turn: the commit if it succeeded, else the dead letter and then the commit, unless
      the last error was a context error, which only a database call can return. */
  ghost predicate Closing(calls: seq<Label>, k: nat, m: Message, last: Result, failed: bool) {
    match last
    case Handled => |calls| == 1 && IsCommit(calls[0], k, !failed)
    case Permanent => Buried(calls, k, failed)
    case Transient =>
      Buried(calls, k, failed) || (failed && HasOrder(m) && calls == [Consume(k, ConsumerCrash)])
  }

  /** The offset passed exactly this message, which is done with, or the turn failed and it is still there. */
  ghost predicate LeftAt(s: State, k: nat, m: Message, offset: nat, failed: bool) {
    || (IdleOn(s.bus, k, m, offset, offset + 1) && Disposed(s.bus, s.books, m, k, offset))
    || (failed && IdleOn(s.bus, k, m, offset, offset))
  }

  /** The rest of a turn, once the handler has succeeded or given up. */
  method CloseTurn(w: World, k: nat, m: Message, offset: nat, attempts: int, last: Result)
    returns (failed: bool, calls: seq<Label>)
    requires w.Valid() && Holds(w.st.bus, k, m, offset, if last.Handled? then Settled else Broken(attempts))
    modifies w
    ensures w.Valid() && Took(old(w.trace), w.trace, k, calls) && Closing(calls, k, m, last, failed)
    ensures LeftAt(w.st, k, m, offset, failed)
  {
    var call: Label;
    if last.Handled? {
      failed, call := CommitOffset(w, k, m, offset);
      return failed, [call];
    }
    var contextError: bool := *;
    OrderExactly(m);
    if last.Transient? && MovementOf(m).Some? && contextError {
      Abandon(w, k, m, offset, attempts);
      return true, [Consume(k, ConsumerCrash)];
    }
    var cause: string := *;
    failed, call := BuryMessage(w, k, m, offset, attempts, cause);
    if failed { return failed, [call]; }
    ghost var between := w.trace;
    var commit: Label;
    failed, commit := CommitOffset(w, k, m, offset);
    TookBoth(old(w.trace), between, w.trace, k, [call], [commit]);
    calls := [call] + [commit];
  }

  /** A turn after its fetch: the attempts and how they ended, and the steps of the handler and of the closing. */
  datatype Turn = Turn(attempts: int, ended: Retried, handled: seq<Label>, closing: seq<Label>)

  /** One to `max` runs of the handler, which end as the message allows, and the closing that this end calls for. */
  ghost predicate TurnSteps(t: Turn, k: nat, m: Message, max: int, failed: bool) {
    && 1 <= t.attempts <= max && HandlerRuns(t.handled, k, t.attempts)
    && match t.ended
       case Ended(last) => EndsAs(m, last, t.attempts, max) && Closing(t.closing, k, m, last, failed)
       case Cancelled => t.attempts < max && AsksLedger(m) && failed && t.closing == [Consume(k, ConsumerCrash)]
  }

  method HandleFetched(w: World, k: nat, m: Message, offset: nat, initial: int, max: int)
    returns (failed: bool, turn: Turn)
    requires w.Valid() && w.cfg.maxAttempts >= 1 && Holds(w.st.bus, k, m, offset, Handling(1, Start))
    modifies w
    ensures w.Valid() && Took(old(w.trace), w.trace, k, turn.handled + turn.closing)
    ensures TurnSteps(turn, k, m, w.cfg.maxAttempts, failed)
    ensures LeftAt(w.st, k, m, offset, failed)
  {
    var attempts, r, waits, handled := HandleWithRetry(w, k, m, offset, initial, max);
    if r.Cancelled? { return true, Turn(attempts, r, handled, [Consume(k, ConsumerCrash)]); }
    ghost var between := w.trace;
    var closing;
    failed, closing := CloseTurn(w, k, m, offset, attempts, r.last);
    TookBoth(old(w.trace), between, w.trace, k, handled, closing);
    turn := Turn(attempts, r, handled, closing);
  }

  predicate NothingAt(bus: Bus, k: nat, offset: nat) { IdleAt(bus, k, offset) && offset >= |bus.partitions[k].log| }

  /** The fetch, if the partition has a message. */
  method FetchMessage(w: World, k: nat) returns (fetched: bool, message: Message, calls: seq<Label>)
    requires w.Valid() && k < |w.st.bus.partitions| && w.st.bus.partitions[k].consumer == Idle
    modifies w
    ensures w.Valid() && Took(old(w.trace), w.trace, k, calls) && calls == (if fetched then [Consume(k, Fetch)] else [])
    ensures var offset := old(w.st.bus.partitions[k].committed);
      if fetched then Holds(w.st.bus, k, message, offset, Handling(1, Start)) else NothingAt(w.st.bus, k, offset)
  {
    message, calls := Message("", EMPTY, Undecodable(""), []), [];
    w.Interfere(ConsumerActor(k));
    fetched := w.st.bus.partitions[k].committed < |w.st.bus.partitions[k].log|;
    if fetched {
      message, calls := Held(w.st.bus, k), [Consume(k, Fetch)];
      w.Act(ConsumerActor(k), Consume(k, Fetch));
    }
  }

  /** One turn of `Run`: fetch, handle with retries, bury if that failed, commit. When it returns an error the process
      ends, and a restart begins at the committed offset; then the offset moved only if the commit took effect
      unseen. */
  method RunOnce(w: World, k: nat, initial: int, max: int)
    returns (failed: bool, fetched: bool, message: Message, turn: Turn, calls: seq<Label>)
    requires w.Valid() && w.cfg.maxAttempts >= 1
    requires k < |w.st.bus.partitions| && w.st.bus.partitions[k].consumer == Idle
    modifies w
    ensures w.Valid() && Took(old(w.trace), w.trace, k, calls)
    ensures calls == if fetched then [Consume(k, Fetch)] + (turn.handled + turn.closing) else []
    ensures if fetched then TurnSteps(turn, k, message, w.cfg.maxAttempts, failed) else !failed
    ensures var offset := old(w.st.bus.partitions[k].committed);
      if fetched then LeftAt(w.st, k, message, offset, failed) else NothingAt(w.st.bus, k, offset)
  {
    failed, turn := false, Turn(0, Cancelled, [], []);
    fetched, message, calls := FetchMessage(w, k);
    if fetched {
      ghost var between := w.trace;
      failed, turn := HandleFetched(w, k, message, w.st.bus.partitions[k].committed, initial, max);
      TookBoth(old(w.trace), between, w.trace, k, calls, turn.handled + turn.closing);
      calls := calls + (turn.handled + turn.closing);
    }
  }
}
