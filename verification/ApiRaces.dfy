/** The payment API under races: idempotent creation and the status machine, for any interleaving of clients. */
module ApiRaces {
  import opened Common
  import opened Messages
  import opened System
  import opened History
  import opened Delivery
  import Rules = PaymentRules

  // ----- idempotent creation

  function Stored(p: Payment): (request: Rules.CreateRequest)
  {
    Rules.CreateRequest(p.amount, p.currency, p.description, p.reference)
  }

  /** The unique index holds exactly the keyed payments, each with the hash of its own stored request. */
  ghost predicate IndexOk(a: Api) {
    && (forall k :: k in a.keyIndex ==> k != "" && a.keyIndex[k] in a.payments && a.payments[a.keyIndex[k]].key == k)
    && (forall p :: p in a.payments && a.payments[p].key != "" ==>
          a.payments[p].key in a.keyIndex && a.keyIndex[a.payments[p].key] == p && KeyedOk(a.payments[p]))
  }

  ghost predicate KeyedOk(p: Payment) {
    p.hash == Rules.RequestHash(Stored(p)) && Rules.Storable(Stored(p))
  }

  /** A client that was refused by the index finds its key there. */
  ghost predicate ClientOk(a: Api, c: Client) { c.Replaying? ==> c.key in a.keyIndex }

  /** What each answer tells its caller. */
  ghost predicate ReplyOk(a: Api, r: Reply) {
    match r
    case CreatedReply(key, p) => p in a.payments && a.payments[p].key == key
    case ReplayReply(key, hash, p) =>
      key in a.keyIndex && a.keyIndex[key] == p && p in a.payments && a.payments[p].hash == hash
    case ConflictReply(key, hash) =>
      key in a.keyIndex && a.keyIndex[key] in a.payments && a.payments[a.keyIndex[key]].hash != hash
    case MissingReply(_) => false
    case _ => true
  }

  ghost predicate CreatedOnce(replies: seq<Reply>) {
    forall i, j :: 0 <= i < j < |replies| && replies[i].CreatedReply? && replies[j].CreatedReply? ==>
      replies[i].payment != replies[j].payment
  }

  ghost predicate CreateInv(a: Api) {
    && IndexOk(a)
    && (forall c :: c in a.clients ==> ClientOk(a, a.clients[c]))
    && (forall i :: 0 <= i < |a.replies| ==> ReplyOk(a, a.replies[i]))
    && CreatedOnce(a.replies)
  }

  /** Payments, keys and hashes of `a` are unchanged in `a'`. */
  ghost predicate ApiExtends(a: Api, a': Api) {
    && (forall p :: p in a.payments ==>
          p in a'.payments && a'.payments[p].key == a.payments[p].key && a'.payments[p].hash == a.payments[p].hash)
    && (forall k :: k in a.keyIndex ==> k in a'.keyIndex && a'.keyIndex[k] == a.keyIndex[k])
  }

  lemma RepliesExtend(a: Api, a': Api)
    requires CreateInv(a) && ApiExtends(a, a')
    ensures forall i :: 0 <= i < |a.replies| ==> ReplyOk(a', a.replies[i])
  {
  }

  /** At most one new answer, which is right, and no change of payments, keys or hashes. */
  lemma AnswerKeeps(a: Api, a': Api, added: seq<Reply>)
    requires CreateInv(a) && IndexOk(a') && ApiExtends(a, a')
    requires forall c :: c in a'.clients ==>
      (c in a.clients && a'.clients[c] == a.clients[c]) || ClientOk(a', a'.clients[c])
    requires |added| <= 1 && a'.replies == a.replies + added
    requires added != [] ==> ReplyOk(a', added[0]) && (added[0].CreatedReply? ==> added[0].payment !in a.payments)
    ensures CreateInv(a')
  {
    RepliesExtend(a, a');
    AnswersDistinct(a, added);
    forall c | c in a'.clients ensures ClientOk(a', a'.clients[c]) {
      if c in a.clients { assert ClientOk(a, a.clients[c]); }
    }
  }

  lemma AnswersDistinct(a: Api, added: seq<Reply>)
    requires CreateInv(a) && |added| <= 1 && (added != [] && added[0].CreatedReply? ==> added[0].payment !in a.payments)
    ensures CreatedOnce(a.replies + added)
  {
  }

  lemma NewPaymentIndexed(a: Api, a': Api, id: nat)
    requires IndexOk(a) && id !in a.payments && id in a'.payments && a'.payments == a.payments[id := a'.payments[id]]
    requires var key := a'.payments[id].key;
      if key == "" then a'.keyIndex == a.keyIndex
      else key !in a.keyIndex && a'.keyIndex == a.keyIndex[key := id] && KeyedOk(a'.payments[id])
    ensures IndexOk(a') && ApiExtends(a, a')
  {
  }

  lemma InsertKeeps(s: State, c: nat, id: nat, event: nat, p: Payment, outcome: Outcome)
    requires CreateInv(s.api) && id !in s.api.payments && (p.key == "" || KeyedOk(p))
    ensures CreateInv(InsertPayment(s, c, id, event, p, outcome).api)
  {
    var a' := InsertPayment(s, c, id, event, p, outcome).api;
    if id in a'.payments {
      NewPaymentIndexed(s.api, a', id);
      AnswerKeeps(s.api, a', if outcome.Acked() then [CreatedReply(p.key, id)] else []);
    } else if a' != s.api {
      AnswerKeeps(s.api, a', []);
    }
  }

  lemma CreateKeeps(s: State, c: nat, id: nat, event: nat, raw: Rules.CreateRequest, rawKey: string, outcome: Outcome)
    requires CreateInv(s.api) && id !in s.api.payments
    ensures CreateInv(CreatePayment(s, c, id, event, raw, rawKey, outcome).api)
  {
    var r, key := Rules.Normalise(raw), Trim(rawKey);
    if Creatable(r, key) {
      assert Stored(NewPayment(r, key)) == r;
      InsertKeeps(s, c, id, event, NewPayment(r, key), outcome);
    }
  }

  lemma StatusChangeIndexed(a: Api, a': Api, id: nat, status: PaymentStatus)
    requires IndexOk(a) && id in a.payments && a'.keyIndex == a.keyIndex
    requires a'.payments == a.payments[id := a.payments[id].(status := status)]
    ensures IndexOk(a') && ApiExtends(a, a')
  {
    assert Stored(a'.payments[id]) == Stored(a.payments[id]);
  }

  lemma SwapKeeps(s: State, c: nat, id: nat, previous: PaymentStatus, target: PaymentStatus, event: nat,
        outcome: Outcome)
    requires CreateInv(s.api)
    ensures CreateInv(CompareAndSet(s, c, id, previous, target, event, outcome).api)
  {
    var a' := CompareAndSet(s, c, id, previous, target, event, outcome).api;
    if !outcome.TookEffect() {
      AnswerKeeps(s.api, a', []);
    } else if id !in s.api.payments || s.api.payments[id].status != previous {
      AnswerKeeps(s.api, a', [NotFoundReply(id)]);
    } else {
      StatusChangeIndexed(s.api, a', id, target);
      AnswerKeeps(s.api, a', if outcome.Acked() then [StatusReply(id, target)] else []);
    }
  }

  lemma SelectKeeps(s: State, c: nat, outcome: Outcome)
    requires CreateInv(s.api) && c in s.api.clients && s.api.clients[c].Replaying?
    ensures CreateInv(SelectExisting(s, c, s.api.clients[c].key, s.api.clients[c].hash, outcome).api)
  {
  }

  lemma ReadKeeps(s: State, c: nat, id: nat, target: PaymentStatus)
    requires CreateInv(s.api)
    ensures CreateInv(ReadStatus(s, c, id, target).api)
  {
    var a' := ReadStatus(s, c, id, target).api;
    if id !in s.api.payments {
      AnswerKeeps(s.api, a', [NotFoundReply(id)]);
    } else if s.api.payments[id].status == target {
      AnswerKeeps(s.api, a', [StatusReply(id, target)]);
    } else if !Rules.CanTransition(s.api.payments[id].status, target) {
      AnswerKeeps(s.api, a', [InvalidReply(id)]);
    } else {
      AnswerKeeps(s.api, a', []);
    }
  }

  lemma ClientKeeps(s: State, c: nat, call: ApiCall)
    requires CreateInv(s.api) && ClientEnabled(s, c, call)
    ensures CreateInv(ClientStep(s, c, call).api)
  {
    match call
    case Insert(id, event, request, key, outcome) => CreateKeeps(s, c, id, event, request, key, outcome);
    case Select(outcome) => SelectKeeps(s, c, outcome);
    case ReadCurrent(id, target) => ReadKeeps(s, c, id, target);
    case Swap(event, outcome) =>
      var u := s.api.clients[c];
      SwapKeeps(s, c, u.payment, u.previous, u.target, event, outcome);
    case Abandon => AnswerKeeps(s.api, s.api.(clients := Without(s.api.clients, c)), []);
  }

  lemma {:induction false} ReachedCreateInv(cfg: Config, partitions: nat, schedule: seq<Label>)
    ensures CreateInv(Reached(cfg, partitions, schedule).api)
  {
    if schedule != [] {
      var n := |schedule| - 1;
      ReachedCreateInv(cfg, partitions, schedule[..n]);
      var s, l := Reached(cfg, partitions, schedule[..n]), schedule[n];
      if Enabled(cfg, s, l) {
        if l.Client? { ClientKeeps(s, l.client, l.request); } else { HistoryFrame(cfg, s, l); }
      }
    }
  }

  /** For each non-empty key there is at most one payment and one created event, whatever the races. */
  lemma OnePaymentPerKey(cfg: Config, partitions: nat, schedule: seq<Label>, e: nat, f: nat)
    requires var s := Reached(cfg, partitions, schedule);
      e in s.box.events && f in s.box.events && IsCreated(s.box.events[e]) && IsCreated(s.box.events[f])
    ensures var s := Reached(cfg, partitions, schedule);
      var p, q := s.box.events[e].aggregateId, s.box.events[f].aggregateId;
      p.Uuid? && q.Uuid? && p.id in s.api.payments && q.id in s.api.payments &&
      (s.api.payments[p.id].key == s.api.payments[q.id].key != "" ==> e == f && p == q)
  {
    ReachedCreateInv(cfg, partitions, schedule);
    ReachedInv(cfg, partitions, schedule);
    var s := Reached(cfg, partitions, schedule);
    assert EventOk(s.api.payments, s.box.created, e, s.box.events[e]);
    assert EventOk(s.api.payments, s.box.created, f, s.box.events[f]);
  }

  /** At most one caller is told that it created the payment of a key. */
  lemma OneCreator(cfg: Config, partitions: nat, schedule: seq<Label>, i: nat, j: nat)
    requires var rs := Reached(cfg, partitions, schedule).api.replies;
      i < |rs| && j < |rs| && rs[i].CreatedReply? && rs[j].CreatedReply? && rs[i].key == rs[j].key != ""
    ensures i == j
  {
    ReachedCreateInv(cfg, partitions, schedule);
    var a := Reached(cfg, partitions, schedule).api;
    assert ReplyOk(a, a.replies[i]) && ReplyOk(a, a.replies[j]);
  }

  /** A replaying caller always finds the row, and gets the id of the one payment of its key. */
  lemma ReplayFinds(cfg: Config, partitions: nat, schedule: seq<Label>, i: nat)
    requires i < |Reached(cfg, partitions, schedule).api.replies|
    ensures var a := Reached(cfg, partitions, schedule).api; var r := a.replies[i];
      && !r.MissingReply?
      && (r.ReplayReply? ==>
          r.payment in a.payments && a.payments[r.payment].key == r.key && a.payments[r.payment].hash == r.hash)
      && (r.ReplayReply? ==> forall p :: p in a.payments && a.payments[p].key == r.key ==> p == r.payment)
  {
    ReachedCreateInv(cfg, partitions, schedule);
    var a := Reached(cfg, partitions, schedule).api;
    assert ReplyOk(a, a.replies[i]);
  }

  /** The answer to a replayed request r, if the select does not fail, is a conflict exactly when the stored request
      differs from r in some field, and otherwise the stored payment's id, unless the commit reports an error. */
  lemma ConflictExactly(cfg: Config, partitions: nat, schedule: seq<Label>, c: nat, r: Rules.CreateRequest,
        outcome: Outcome)
    requires var s := Reached(cfg, partitions, schedule);
      c in s.api.clients && s.api.clients[c].Replaying? && s.api.clients[c].hash == Rules.RequestHash(r)
    ensures var s := Reached(cfg, partitions, schedule); var key := s.api.clients[c].key;
      key in s.api.keyIndex && s.api.keyIndex[key] in s.api.payments
    ensures var s := Reached(cfg, partitions, schedule); var key := s.api.clients[c].key; var p := s.api.keyIndex[key];
      ClientStep(s, c, Select(outcome)).api.replies == s.api.replies +
        (if outcome == NotDone then []
         else if Stored(s.api.payments[p]) != r then [ConflictReply(key, Rules.RequestHash(r))]
         else if outcome == Done then [ReplayReply(key, Rules.RequestHash(r), p)] else [])
  {
    ReachedCreateInv(cfg, partitions, schedule);
    var s := Reached(cfg, partitions, schedule);
    assert ClientOk(s.api, s.api.clients[c]);
    var p := s.api.payments[s.api.keyIndex[s.api.clients[c].key]];
    assert KeyedOk(p);
    Rules.HashDecides(Stored(p), r);
  }

  // ----- the status machine

  ghost predicate IsStatusEventOf(b: Box, id: nat, payment: nat) {
    id in b.events && !IsCreated(b.events[id]) && b.events[id].aggregateId == Uuid(payment)
  }

  /** The status event of a payment that left pending: aggregate, type, and both statuses in their places. */
  function LeftPending(payment: nat, status: PaymentStatus): (e: Event) {
    Event(Uuid(payment), Str("payment.status_changed"), StatusBody(Uuid(payment), Pending, status))
  }

  /** A pending payment has no status event; a terminal one has exactly one, from pending to its status. */
  ghost predicate StatusOk(b: Box, payment: nat, status: PaymentStatus) {
    if status == Pending then forall id :: !IsStatusEventOf(b, id, payment)
    else exists id :: IsStatusEventOf(b, id, payment) && b.events[id] == LeftPending(payment, status) &&
           forall other :: IsStatusEventOf(b, other, payment) ==> other == id
  }

  ghost predicate StatusInv(a: Api, b: Box) {
    && (forall p :: p in a.payments ==> StatusOk(b, p, a.payments[p].status))
    && (forall c :: c in a.clients && a.clients[c].Updating? ==>
          a.clients[c].payment in a.payments && a.clients[c].previous == Pending && a.clients[c].target != Pending)
  }

  /** An inserted event that is no status event of the payment leaves its status history alone. */
  lemma StatusUntouched(b: Box, b': Box, event: nat, payment: nat, status: PaymentStatus)
    requires StatusOk(b, payment, status) && event !in b.events && event in b'.events &&
      b'.events == b.events[event := b'.events[event]]
    requires !IsStatusEventOf(b', event, payment)
    ensures StatusOk(b', payment, status)
  {
    forall id ensures IsStatusEventOf(b', id, payment) <==> IsStatusEventOf(b, id, payment) {}
    if status != Pending {
      var id :| IsStatusEventOf(b, id, payment) && b.events[id] == LeftPending(payment, status) &&
        forall other :: IsStatusEventOf(b, other, payment) ==> other == id;
      assert IsStatusEventOf(b', id, payment) && b'.events[id] == b.events[id];
    }
  }

  lemma EventTypesDiffer()
    ensures PAYMENT_CREATED != STATUS_CHANGED
  {
  }

  lemma NoEventsYet(payments: map<nat, Payment>, b: Box, id: nat)
    requires HistoryOk(payments, b) && id !in payments
    ensures forall k :: !IsStatusEventOf(b, k, id)
  {
  }

  /** A new payment is pending and its created event is no status event. */
  lemma InsertedStatus(a: Api, b: Box, a': Api, b': Box, id: nat, event: nat)
    requires HistoryOk(a.payments, b) && StatusInv(a, b) && id !in a.payments && event !in b.events
    requires id in a'.payments && a'.payments == a.payments[id := a'.payments[id]] &&
      a'.payments[id].status == Pending && a'.clients == a.clients
    requires event in b'.events && b'.events == b.events[event := b'.events[event]] && IsCreated(b'.events[event])
    ensures StatusInv(a', b')
  {
    NoEventsYet(a.payments, b, id);
    forall p | p in a'.payments ensures StatusOk(b', p, a'.payments[p].status) {
      if p != id {
        assert StatusOk(b, p, a.payments[p].status);
        StatusUntouched(b, b', event, p, a.payments[p].status);
      } else {
        forall k ensures !IsStatusEventOf(b', k, id) { assert !IsStatusEventOf(b, k, id); }
      }
    }
  }

  lemma InsertStatus(s: State, c: nat, id: nat, event: nat, p: Payment, outcome: Outcome)
    requires HistoryOk(s.api.payments, s.box) && StatusInv(s.api, s.box) && p.status == Pending &&
      id !in s.api.payments && event !in s.box.events
    ensures var s' := InsertPayment(s, c, id, event, p, outcome); StatusInv(s'.api, s'.box)
  {
    var s' := InsertPayment(s, c, id, event, p, outcome);
    if id in s'.api.payments { InsertedStatus(s.api, s.box, s'.api, s'.box, id, event); }
  }

  lemma CreateStatus(s: State, c: nat, id: nat, event: nat, raw: Rules.CreateRequest, rawKey: string, outcome: Outcome)
    requires HistoryOk(s.api.payments, s.box) && StatusInv(s.api, s.box) && id !in s.api.payments &&
      event !in s.box.events
    ensures var s' := CreatePayment(s, c, id, event, raw, rawKey, outcome); StatusInv(s'.api, s'.box)
  {
    var r, key := Rules.Normalise(raw), Trim(rawKey);
    if Creatable(r, key) { InsertStatus(s, c, id, event, NewPayment(r, key), outcome); }
  }

  lemma SwapStatus(s: State, c: nat, id: nat, target: PaymentStatus, event: nat, outcome: Outcome)
    requires StatusInv(s.api, s.box) && event !in s.box.events && target != Pending
    ensures var s' := CompareAndSet(s, c, id, Pending, target, event, outcome); StatusInv(s'.api, s'.box)
  {
    var s' := CompareAndSet(s, c, id, Pending, target, event, outcome);
    if s'.box != s.box {
      EventTypesDiffer();
      forall p | p in s'.api.payments ensures StatusOk(s'.box, p, s'.api.payments[p].status) {
        assert StatusOk(s.box, p, s.api.payments[p].status);
        if p != id {
          StatusUntouched(s.box, s'.box, event, p, s.api.payments[p].status);
        } else {
          assert IsStatusEventOf(s'.box, event, id);
          assert forall k :: IsStatusEventOf(s'.box, k, id) && k != event ==> IsStatusEventOf(s.box, k, id);
        }
      }
    }
  }

  lemma ClientStatus(s: State, c: nat, call: ApiCall)
    requires HistoryOk(s.api.payments, s.box) && StatusInv(s.api, s.box) && ClientEnabled(s, c, call)
    ensures var s' := ClientStep(s, c, call); StatusInv(s'.api, s'.box)
  {
    match call
    case Insert(id, event, request, key, outcome) => CreateStatus(s, c, id, event, request, key, outcome);
    case Swap(event, outcome) =>
      var u := s.api.clients[c];
      SwapStatus(s, c, u.payment, u.target, event, outcome);
    case _ =>
  }

  lemma StatusFrame(a: Api, b: Box, b': Box)
    requires StatusInv(a, b) && b'.events == b.events
    ensures StatusInv(a, b')
  {
    forall p | p in a.payments ensures StatusOk(b', p, a.payments[p].status) {
      assert StatusOk(b, p, a.payments[p].status);
      forall id ensures IsStatusEventOf(b', id, p) <==> IsStatusEventOf(b, id, p) {}
      if a.payments[p].status != Pending {
        var id :| IsStatusEventOf(b, id, p) && b.events[id] == LeftPending(p, a.payments[p].status) &&
          forall other :: IsStatusEventOf(b, other, p) ==> other == id;
        assert IsStatusEventOf(b', id, p);
      }
    }
  }

  lemma StepStatus(cfg: Config, s: State, l: Label)
    requires HistoryOk(s.api.payments, s.box) && StatusInv(s.api, s.box)
    ensures var s' := Step(cfg, s, l); StatusInv(s'.api, s'.box)
  {
    if Enabled(cfg, s, l) {
      if l.Client? {
        ClientStatus(s, l.client, l.request);
      } else {
        HistoryFrame(cfg, s, l);
        StatusFrame(s.api, s.box, Apply(cfg, s, l).box);
      }
    }
  }

  lemma {:induction false} ReachedStatus(cfg: Config, partitions: nat, schedule: seq<Label>)
    ensures var s := Reached(cfg, partitions, schedule); HistoryOk(s.api.payments, s.box) && StatusInv(s.api, s.box)
  {
    if schedule != [] {
      var n := |schedule| - 1;
      ReachedStatus(cfg, partitions, schedule[..n]);
      StepStatus(cfg, Reached(cfg, partitions, schedule[..n]), schedule[n]);
      StepHistory(cfg, Reached(cfg, partitions, schedule[..n]), schedule[n]);
    }
  }

  /** The history holds exactly one status event for a terminal payment, with matching statuses, and none for a pending
      one. */
  lemma StatusHistory(cfg: Config, partitions: nat, schedule: seq<Label>, payment: nat)
    requires payment in Reached(cfg, partitions, schedule).api.payments
    ensures var s := Reached(cfg, partitions, schedule); StatusOk(s.box, payment, s.api.payments[payment].status)
  {
    ReachedStatus(cfg, partitions, schedule);
  }

  /** A payment is unchanged, or leaves pending for a terminal status and is otherwise unchanged. */
  predicate LeavesPendingAtMost(p: Payment, p': Payment) {
    p' == p || (p.status == Pending && Rules.Terminal(p'.status) && p' == p.(status := p'.status))
  }

  lemma ClientLeaves(s: State, c: nat, call: ApiCall, payment: nat)
    requires StatusInv(s.api, s.box) && ClientEnabled(s, c, call) && payment in s.api.payments
    ensures var a' := ClientStep(s, c, call).api;
      payment in a'.payments && LeavesPendingAtMost(s.api.payments[payment], a'.payments[payment])
  {
    match call
    case Swap(event, outcome) =>
      var u := s.api.clients[c];
      SwapLeaves(s, c, u.payment, u.target, event, outcome, payment);
    case Insert(id, event, request, key, outcome) => InsertLeaves(s, c, id, event, request, key, outcome, payment);
    case _ =>
  }

  lemma SwapLeaves(s: State, c: nat, id: nat, target: PaymentStatus, event: nat, outcome: Outcome, payment: nat)
    requires target != Pending && payment in s.api.payments
    ensures var a' := CompareAndSet(s, c, id, Pending, target, event, outcome).api;
      payment in a'.payments && LeavesPendingAtMost(s.api.payments[payment], a'.payments[payment])
  {
  }

  lemma InsertLeaves(s: State, c: nat, id: nat, event: nat, raw: Rules.CreateRequest, rawKey: string, outcome: Outcome,
        payment: nat)
    requires payment in s.api.payments && id !in s.api.payments
    ensures var a' := CreatePayment(s, c, id, event, raw, rawKey, outcome).api;
      payment in a'.payments && a'.payments[payment] == s.api.payments[payment]
  {
  }

  /** One step changes a payment's status only from pending to a terminal status, and nothing else of it. */
  lemma StatusStep(cfg: Config, s: State, l: Label, payment: nat)
    requires StatusInv(s.api, s.box) && payment in s.api.payments
    ensures var a' := Step(cfg, s, l).api;
      payment in a'.payments && LeavesPendingAtMost(s.api.payments[payment], a'.payments[payment])
  {
    if Enabled(cfg, s, l) {
      if l.Client? { ClientLeaves(s, l.client, l.request, payment); } else { HistoryFrame(cfg, s, l); }
    }
  }

  lemma TerminalNext(cfg: Config, partitions: nat, schedule: seq<Label>, l: Label, payment: nat)
    requires var s := Reached(cfg, partitions, schedule);
      payment in s.api.payments && Rules.Terminal(s.api.payments[payment].status)
    ensures var s, s' := Reached(cfg, partitions, schedule), Reached(cfg, partitions, schedule + [l]);
      payment in s'.api.payments && s'.api.payments[payment] == s.api.payments[payment]
  {
    assert (schedule + [l])[..|schedule|] == schedule;
    ReachedStatus(cfg, partitions, schedule);
    StatusStep(cfg, Reached(cfg, partitions, schedule), l, payment);
  }

  /** Terminal states never change, over whole runs; so every payment leaves pending at most once. */
  lemma {:induction false} TerminalForever(cfg: Config, partitions: nat, before: seq<Label>, after: seq<Label>,
        payment: nat)
    requires var s := Reached(cfg, partitions, before);
      payment in s.api.payments && Rules.Terminal(s.api.payments[payment].status)
    ensures var s, s' := Reached(cfg, partitions, before), Reached(cfg, partitions, before + after);
      payment in s'.api.payments && s'.api.payments[payment] == s.api.payments[payment]
  {
    if after == [] {
      assert before + after == before;
    } else {
      var n := |after| - 1;
      TerminalForever(cfg, partitions, before, after[..n], payment);
      TerminalNext(cfg, partitions, before + after[..n], after[n], payment);
      assert before + after == before + after[..n] + [after[n]];
    }
  }

  /** A compare-and-set answers that the payment does not exist exactly when it takes effect on a payment that has
      left pending, that is, when the client lost the race; then it changes nothing else. */
  lemma LosingSwapReportsNotFound(cfg: Config, partitions: nat, schedule: seq<Label>, c: nat, event: nat,
        outcome: Outcome)
    requires ClientEnabled(Reached(cfg, partitions, schedule), c, Swap(event, outcome))
    ensures var s := Reached(cfg, partitions, schedule); var p := s.api.clients[c].payment;
      && p in s.api.payments
      && (ClientStep(s, c, Swap(event, outcome)).api.replies == s.api.replies + [NotFoundReply(p)] <==>
          outcome.TookEffect() && Rules.Terminal(s.api.payments[p].status))
    ensures var s := Reached(cfg, partitions, schedule); var p := s.api.clients[c].payment;
      outcome.TookEffect() && Rules.Terminal(s.api.payments[p].status) ==>
        ClientStep(s, c, Swap(event, outcome)) ==
          Answer(s.(api := s.api.(clients := Without(s.api.clients, c))), NotFoundReply(p))
  {
    ReachedStatus(cfg, partitions, schedule);
    var s := Reached(cfg, partitions, schedule);
    var u := s.api.clients[c];
    SwapAnswer(s, c, u.payment, u.previous, u.target, event, outcome);
  }

  lemma SwapAnswer(s: State, c: nat, id: nat, previous: PaymentStatus, target: PaymentStatus, event: nat,
        outcome: Outcome)
    requires id in s.api.payments
    ensures var s' := CompareAndSet(s, c, id, previous, target, event, outcome);
      s'.api.replies == s.api.replies + [NotFoundReply(id)] <==>
        outcome.TookEffect() && s.api.payments[id].status != previous
  {
    var rs := s.api.replies;
    assert (rs + [NotFoundReply(id)])[|rs|] == NotFoundReply(id);
    assert (rs + [StatusReply(id, target)])[|rs|] == StatusReply(id, target);
    assert |rs + [NotFoundReply(id)]| == |rs| + 1;
  }
}
