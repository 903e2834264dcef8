/** The payment service's `Create` and `UpdateStatus` against the world: what their callers may conclude from each
    answer. */
module PaymentServiceProgram {
  import opened Common
  import opened Messages
  import opened Wire
  import opened System
  import opened ApiRaces
  import opened World
  import opened ConsumerProgram
  import Rules = PaymentRules

  /** `validateCreatePayment`. */
  method Validate(r: Rules.CreateRequest, key: string) returns (ok: bool)
    ensures ok <==> Rules.ValidCreate(r, key)
  {
    if r.amount <= 0 { return false; }
    if |r.currency| != 3 { return false; }
    for i := 0 to |r.currency|
      invariant forall j :: 0 <= j < i ==> IsUpperLetter(r.currency[j])
    {
      if !IsUpperLetter(r.currency[i]) { return false; }
    }
    return |r.description| <= 500 && |r.reference| <= 120 && |key| <= 120;
  }

  // ----- creation

  /** What the API accepts: a positive amount, a currency of three letters, and texts within their limits, all of them
      trimmed and the currency in upper case. */
  predicate GoodRequest(raw: Rules.CreateRequest, rawKey: string) {
    && raw.amount > 0 && ThreeLetters(Upper(Trim(raw.currency)))
    && |Trim(raw.description)| <= 500 && |Trim(raw.reference)| <= 120 && |Trim(rawKey)| <= 120
  }

  lemma GoodExactly(raw: Rules.CreateRequest, rawKey: string)
    ensures GoodRequest(raw, rawKey) <==> Rules.ValidCreate(Rules.Normalise(raw), Trim(rawKey))
  {
  }

  /** The payment holds the request, texts trimmed and the currency in upper case, under its trimmed key. */
  predicate HoldsRequest(p: Payment, raw: Rules.CreateRequest, rawKey: string) {
    && p.amount == raw.amount && p.currency == Upper(Trim(raw.currency)) && p.description == Trim(raw.description)
    && p.reference == Trim(raw.reference) && p.key == Trim(rawKey)
  }

  /** The hash kept beside a key: that of the payment's four fields, in this order. */
  predicate HoldsHash(p: Payment) {
    p.hash == if p.key == "" then ""
              else Rules.FormatInt(p.amount) + "\0" + (p.currency + "\0" + (p.description + "\0" + p.reference))
  }

  predicate HasNul(raw: Rules.CreateRequest, rawKey: string) {
    '\0' in Upper(Trim(raw.currency)) || '\0' in Trim(raw.description) || '\0' in Trim(raw.reference) ||
      '\0' in Trim(rawKey)
  }

  /** The outbox holds the payment's created event, still to be published. */
  ghost predicate HasNewCreatedEvent(b: Box, payment: nat, amount: int, currency: string) {
    exists event :: event in b.rows && b.rows[event] == OutboxRow(
      Event(Uuid(payment), Str("payment.created"), CreatedBody(Uuid(payment), amount, currency)), Waiting, 0, None)
  }

  /** What an answer says in the caller's own terms. A created payment is new and pending, and its event is in the
      outbox;
      a replayed one is there and holds the same request; a conflict means that the key's payment holds another. */
  ghost predicate AnswerMeans(before: State, s: State, raw: Rules.CreateRequest, rawKey: string, result: CreateResult) {
    match result
    case Created(p) =>
      && p !in before.api.payments && p in s.api.payments && HoldsRequest(s.api.payments[p], raw, rawKey)
      && s.api.payments[p].status == Pending && HoldsHash(s.api.payments[p])
      && HasNewCreatedEvent(s.box, p, s.api.payments[p].amount, s.api.payments[p].currency)
    case Replayed(p) => Trim(rawKey) != "" && p in s.api.payments && HoldsRequest(s.api.payments[p], raw, rawKey)
    case Conflict => Trim(rawKey) != "" && KeyHoldsOther(s.api, raw, rawKey)
    case _ => true
  }

  ghost predicate KeyHoldsOther(a: Api, raw: Rules.CreateRequest, rawKey: string) {
    exists p :: p in a.payments && a.payments[p].key == Trim(rawKey) && !HoldsRequest(a.payments[p], raw, rawKey)
  }

  /** The call's caller saw an error. */
  predicate SawError(call: Label) {
    call.Client? &&
    match call.request
    case Insert(_, _, _, _, outcome) => outcome != Done
    case Select(outcome) => outcome != Done
    case ReadCurrent(_, _) => false
    case Swap(_, outcome) => outcome != Done
    case Abandon => false
  }

  lemma InsertMeans(s: State, c: nat, id: nat, event: nat, raw: Rules.CreateRequest, rawKey: string, before: State)
    requires PaymentsStay(before.api, s.api) && id !in s.api.payments && event !in s.box.events
    requires Creatable(Rules.Normalise(raw), Trim(rawKey))
    requires Trim(rawKey) == "" || Trim(rawKey) !in s.api.keyIndex
    ensures AnswerMeans(before, CreatePayment(s, c, id, event, raw, rawKey, Done), raw, rawKey, Created(id))
  {
    var s' := CreatePayment(s, c, id, event, raw, rawKey, Done);
    Rules.HashText(Rules.Normalise(raw));
    assert event in s'.box.rows && s'.box.rows[event].event == Event(Uuid(id), Str("payment.created"),
      CreatedBody(Uuid(id), s'.api.payments[id].amount, s'.api.payments[id].currency));
  }

  /** The select's answer, in the caller's terms. */
  lemma SelectMeans(cfg: Config, partitions: nat, schedule: seq<Label>, before: State, raw: Rules.CreateRequest,
        rawKey: string, result: CreateResult)
    requires !result.Created? && Trim(rawKey) != ""
    requires CreateAnswer(Reached(cfg, partitions, schedule).api, Rules.Normalise(raw), Trim(rawKey), result)
    ensures AnswerMeans(before, Reached(cfg, partitions, schedule), raw, rawKey, result)
  {
    ReachedCreateInv(cfg, partitions, schedule);
    var a := Reached(cfg, partitions, schedule).api;
    if result.Conflict? {
      var p := a.keyIndex[Trim(rawKey)];
      assert p in a.payments && a.payments[p].key == Trim(rawKey) && !HoldsRequest(a.payments[p], raw, rawKey);
    }
  }

  datatype CreateResult = Created(payment: nat) | Replayed(payment: nat) | Conflict | Invalid | Failed

  /** How an insert ended for its caller. */
  datatype Inserted = New(payment: nat) | KeyTaken | InsertFailed

  lemma InsertEffect(s: State, c: nat, id: nat, event: nat, p: Payment, outcome: Outcome)
    ensures var s' := InsertPayment(s, c, id, event, p, outcome); var taken := p.key != "" && p.key in s.api.keyIndex;
      && (taken && outcome.Acked() ==> s'.api.clients == s.api.clients[c := Replaying(p.key, p.hash)])
      && (!taken || !outcome.Acked() ==> s'.api.clients == s.api.clients)
      && (!taken && outcome.Acked() ==>
          s'.api.payments == s.api.payments[id := p] && Answered(s'.api, CreatedReply(p.key, id)))
  {
  }

  lemma CreateEffect(s: State, c: nat, id: nat, event: nat, raw: Rules.CreateRequest, rawKey: string,
        r: Rules.CreateRequest, key: string, outcome: Outcome)
    requires r == Rules.Normalise(raw) && key == Trim(rawKey)
    ensures CreatePayment(s, c, id, event, raw, rawKey, outcome) ==
            if Creatable(r, key) then InsertPayment(s, c, id, event, NewPayment(r, key), outcome) else s
  {
  }

  /** The insert ends so, and leaves this. */
  ghost predicate InsertEnds(before: State, s: State, c: nat, raw: Rules.CreateRequest, rawKey: string, i: Inserted) {
    var r, key := Rules.Normalise(raw), Trim(rawKey);
    match i
    case New(p) =>
      c !in s.api.clients && CreateAnswer(s.api, r, key, Created(p)) && AnswerMeans(before, s, raw, rawKey, Created(p))
    case KeyTaken =>
      key != "" && c in s.api.clients && s.api.clients[c] == Replaying(key, Rules.RequestHash(r))
    case InsertFailed => c !in s.api.clients
  }

  lemma InsertOutcome(before: State, s: State, c: nat, id: nat, event: nat, raw: Rules.CreateRequest, rawKey: string,
        outcome: Outcome)
    requires PaymentsStay(before.api, s.api) && id !in s.api.payments && event !in s.box.events && c !in s.api.clients
    ensures var r, key := Rules.Normalise(raw), Trim(rawKey);
      var i := if !Creatable(r, key) || !outcome.Acked() then InsertFailed
               else if key != "" && key in s.api.keyIndex then KeyTaken else New(id);
      InsertEnds(before, CreatePayment(s, c, id, event, raw, rawKey, outcome), c, raw, rawKey, i)
  {
    var r, key := Rules.Normalise(raw), Trim(rawKey);
    CreateEffect(s, c, id, event, raw, rawKey, r, key, outcome);
    InsertEffect(s, c, id, event, NewPayment(r, key), outcome);
    if Creatable(r, key) && outcome.Acked() && (key == "" || key !in s.api.keyIndex) {
      InsertMeans(s, c, id, event, raw, rawKey, before);
    }
  }

  method InsertCall(w: World, c: nat, raw: Rules.CreateRequest, rawKey: string, r: Rules.CreateRequest, key: string)
    returns (i: Inserted, call: Label)
    requires w.Valid() && c !in w.st.api.clients && IsInt64(raw.amount)
    requires r == Rules.Normalise(raw) && key == Trim(rawKey)
    modifies w
    ensures w.Valid() && Own(w.trace, ClientActor(c)) == Own(old(w.trace), ClientActor(c)) + [call]
    ensures call.Client? && call.request.Insert?
    ensures InsertEnds(old(w.st), w.st, c, raw, rawKey, i)
    ensures i.InsertFailed? ==> SawError(call) || HasNul(raw, rawKey) || !GoodRequest(raw, rawKey)
  {
    GoodExactly(raw, rawKey);
    w.Interfere(ClientActor(c));
    var id := NewId(w.st.api.payments.Keys);
    var event := NewId(w.st.box.events.Keys);
    var outcome: Outcome := *;
    call := Client(c, Insert(id, event, raw, rawKey, outcome));
    var storable := Creatable(r, key);
    var taken := key != "" && key in w.st.api.keyIndex;
    InsertOutcome(old(w.st), w.st, c, id, event, raw, rawKey, outcome);
    w.Act(ClientActor(c), call);
    i := if !storable || !outcome.Acked() then InsertFailed else if taken then KeyTaken else New(id);
  }

  /** The last answer given. */
  predicate Answered(a: Api, r: Reply) { a.replies != [] && a.replies[|a.replies| - 1] == r }

  method SelectCall(w: World, c: nat, r: Rules.CreateRequest, key: string) returns (result: CreateResult, call: Label)
    requires w.Valid() && c in w.st.api.clients && w.st.api.clients[c] == Replaying(key, Rules.RequestHash(r))
    modifies w
    ensures w.Valid() && Own(w.trace, ClientActor(c)) == Own(old(w.trace), ClientActor(c)) + [call]
    ensures call.Client? && call.request.Select? && c !in w.st.api.clients
    ensures !result.Created? && !result.Invalid? && CreateAnswer(w.st.api, r, key, result)
    ensures result.Failed? ==> SawError(call)
  {
    w.Interfere(ClientActor(c));
    ReachedCreateInv(w.cfg, w.partitions, w.trace);
    assert ClientOk(w.st.api, w.st.api.clients[c]);
    var outcome: Outcome := *;
    var existing := w.st.api.keyIndex[key];
    var same := w.st.api.payments[existing].hash == Rules.RequestHash(r);
    assert KeyedOk(w.st.api.payments[existing]);
    Rules.HashDecides(Stored(w.st.api.payments[existing]), r);
    call := Client(c, Select(outcome));
    w.Act(ClientActor(c), call);
    if !outcome.TookEffect() { result := CreateResult.Failed; }
    else if !same { result := Conflict; }
    else if !outcome.Acked() { result := CreateResult.Failed; }
    else { result := Replayed(existing); }
  }

  /** What an answer says about the database: a created payment holds the request; a replayed one is the key's payment
      and stores the same request in every field; a conflict means that the key's payment stores another request. */
  predicate CreateAnswer(a: Api, r: Rules.CreateRequest, key: string, result: CreateResult) {
    match result
    case Created(p) => p in a.payments && a.payments[p] == NewPayment(r, key) && Answered(a, CreatedReply(key, p))
    case Replayed(p) =>
      key in a.keyIndex && a.keyIndex[key] == p && p in a.payments && Stored(a.payments[p]) == r &&
        Answered(a, ReplayReply(key, Rules.RequestHash(r), p))
    case Conflict =>
      key in a.keyIndex && a.keyIndex[key] in a.payments && Stored(a.payments[a.keyIndex[key]]) != r &&
        Answered(a, ConflictReply(key, Rules.RequestHash(r)))
    case _ => true
  }

  predicate FailedCall(calls: seq<Label>) { calls != [] && SawError(calls[|calls| - 1]) }

  /** `PostgresPaymentRepository.Create`. */
  method StorePayment(w: World, c: nat, raw: Rules.CreateRequest, rawKey: string, r: Rules.CreateRequest, key: string)
    returns (result: CreateResult, calls: seq<Label>)
    requires w.Valid() && c !in w.st.api.clients && IsInt64(raw.amount)
    requires r == Rules.Normalise(raw) && key == Trim(rawKey)
    modifies w
    ensures w.Valid() && c !in w.st.api.clients
    ensures Own(w.trace, ClientActor(c)) == Own(old(w.trace), ClientActor(c)) + calls
    ensures !result.Invalid? && CreateAnswer(w.st.api, r, key, result)
    ensures AnswerMeans(old(w.st), w.st, raw, rawKey, result)
    ensures result.Failed? ==> FailedCall(calls) || HasNul(raw, rawKey) || !GoodRequest(raw, rawKey)
    ensures result.Created? ==> |calls| == 1
    ensures result.Replayed? || result.Conflict? ==> key != "" && |calls| == 2
  {
    var i, insert := InsertCall(w, c, raw, rawKey, r, key);
    calls := [insert];
    if i.New? { return Created(i.payment), calls; }
    if i.InsertFailed? { return CreateResult.Failed, calls; }
    var select: Label;
    ghost var mine := Own(w.trace, ClientActor(c));
    result, select := SelectCall(w, c, r, key);
    SelectMeans(w.cfg, w.partitions, w.trace, old(w.st), raw, rawKey, result);
    Chain(Own(old(w.trace), ClientActor(c)), mine, Own(w.trace, ClientActor(c)), [insert], [select]);
    calls := [insert] + [select];
  }

  /** `PaymentService.Create`. */
  method Create(w: World, c: nat, raw: Rules.CreateRequest, rawKey: string)
    returns (result: CreateResult, calls: seq<Label>)
    requires w.Valid() && c !in w.st.api.clients && IsInt64(raw.amount)
    modifies w
    ensures w.Valid() && c !in w.st.api.clients
    ensures Own(w.trace, ClientActor(c)) == Own(old(w.trace), ClientActor(c)) + calls
    ensures result.Invalid? <==> !GoodRequest(raw, rawKey)
    ensures result.Invalid? ==> w.st == old(w.st) && calls == []
    ensures AnswerMeans(old(w.st), w.st, raw, rawKey, result)
    ensures result.Failed? ==> FailedCall(calls) || HasNul(raw, rawKey)
  {
    GoodExactly(raw, rawKey);
    var r := Rules.Normalise(raw);
    var key := Trim(rawKey);
    var ok := Validate(r, key);
    if !ok { return Invalid, []; }
    result, calls := StorePayment(w, c, raw, rawKey, r, key);
  }

  // ----- status updates

  datatype UpdateResult = Updated | Unchanged | InvalidTransition | NotFound | UpdateFailed

  /** The answer recorded for each result. */
  function ReplyFor(id: nat, target: PaymentStatus, result: UpdateResult): (reply: Reply)
    requires !result.UpdateFailed?
  {
    match result
    case Updated => StatusReply(id, target)
    case Unchanged => StatusReply(id, target)
    case InvalidTransition => InvalidReply(id)
    case NotFound => NotFoundReply(id)
  }

  /** What an answer says about the payment: in particular a caller who lost the race of two updates is told that the
      payment was not found, although it is there and terminal. */
  predicate UpdateAnswer(a: Api, id: nat, target: PaymentStatus, result: UpdateResult) {
    (result.UpdateFailed? || Answered(a, ReplyFor(id, target, result))) &&
    match result
    case Updated => id in a.payments && a.payments[id].status == target && Rules.Terminal(target)
    case Unchanged => id in a.payments && a.payments[id].status == target
    case InvalidTransition =>
      id in a.payments && a.payments[id].status != target && Rules.Terminal(a.payments[id].status)
    case NotFound => id in a.payments ==> Rules.Terminal(a.payments[id].status)
    case UpdateFailed => true
  }

  /** The answer after the read alone: not found exactly when the payment is not there, unchanged exactly when it has
      the
      requested status, and an invalid transition exactly when it is terminal with another one. */
  predicate ReadAnswer(a: Api, id: nat, target: PaymentStatus, result: UpdateResult) {
    && (result == NotFound || result == Unchanged || result == InvalidTransition)
    && (result == NotFound <==> id !in a.payments)
    && (id in a.payments ==>
          && (result == Unchanged <==> a.payments[id].status == target)
          && (result == InvalidTransition <==> a.payments[id].status != Pending && a.payments[id].status != target))
  }

  /** The outbox holds an event of the payment's change from pending. */
  ghost predicate HasStatusEvent(b: Box, payment: nat, status: PaymentStatus) {
    exists event :: event in b.rows && b.rows[event] == OutboxRow(
      Event(Uuid(payment), Str("payment.status_changed"), StatusBody(Uuid(payment), Pending, status)), Waiting, 0, None)
  }

  /** The answer after a read that found the payment pending, and the swap: updated, with the event in the outbox, or
      not
      found although the payment is there, because it has left pending meanwhile. */
  ghost predicate SwapAnswer(s: State, id: nat, target: PaymentStatus, result: UpdateResult) {
    id in s.api.payments && target != Pending &&
    match result
    case Updated => s.api.payments[id].status == target && HasStatusEvent(s.box, id, target)
    case NotFound => s.api.payments[id].status != Pending
    case UpdateFailed => true
    case _ => false
  }

  method ReadCall(w: World, c: nat, id: nat, target: PaymentStatus) returns (done: Option<UpdateResult>, call: Label)
    requires w.Valid() && c !in w.st.api.clients
    modifies w
    ensures w.Valid() && Own(w.trace, ClientActor(c)) == Own(old(w.trace), ClientActor(c)) + [call]
    ensures call.Client? && call.request.ReadCurrent?
    ensures done.Some? ==>
      c !in w.st.api.clients && UpdateAnswer(w.st.api, id, target, done.value) &&
        ReadAnswer(w.st.api, id, target, done.value)
    ensures done == None ==>
      c in w.st.api.clients && w.st.api.clients[c] == Updating(id, Pending, target) && Rules.Terminal(target)
  {
    w.Interfere(ClientActor(c));
    var here := id in w.st.api.payments;
    var current := if here then w.st.api.payments[id].status else Pending;
    call := Client(c, ReadCurrent(id, target));
    w.Act(ClientActor(c), call);
    if !here { done := Some(NotFound); }
    else if current == target { done := Some(Unchanged); }
    else if !Rules.CanTransition(current, target) { done := Some(InvalidTransition); }
    else { done := None; }
  }

  lemma SwapOutcome(s: State, c: nat, id: nat, target: PaymentStatus, event: nat, outcome: Outcome)
    requires id in s.api.payments && target != Pending && event !in s.box.events
    ensures var s' := CompareAndSet(s, c, id, Pending, target, event, outcome);
      SwapAnswer(s', id, target, if outcome.TookEffect() && s.api.payments[id].status != Pending then NotFound
                                 else if !outcome.Acked() then UpdateFailed else Updated)
  {
    var s' := CompareAndSet(s, c, id, Pending, target, event, outcome);
    if outcome.Acked() && s.api.payments[id].status == Pending { assert event in s'.box.rows; }
  }

  method SwapCall(w: World, c: nat, id: nat, target: PaymentStatus) returns (result: UpdateResult, call: Label)
    requires w.Valid() && c in w.st.api.clients && w.st.api.clients[c] == Updating(id, Pending, target) &&
      Rules.Terminal(target)
    modifies w
    ensures w.Valid() && Own(w.trace, ClientActor(c)) == Own(old(w.trace), ClientActor(c)) + [call]
    ensures call.Client? && call.request.Swap? && c !in w.st.api.clients
    ensures UpdateAnswer(w.st.api, id, target, result) && SwapAnswer(w.st, id, target, result)
    ensures result.UpdateFailed? ==> SawError(call)
  {
    w.Interfere(ClientActor(c));
    ReachedStatus(w.cfg, w.partitions, w.trace);
    var event := NewId(w.st.box.events.Keys);
    var outcome: Outcome := *;
    var matched := id in w.st.api.payments && w.st.api.payments[id].status == Pending;
    call := Client(c, Swap(event, outcome));
    SwapOutcome(w.st, c, id, target, event, outcome);
    w.Act(ClientActor(c), call);
    if !outcome.TookEffect() { result := UpdateFailed; }
    else if !matched { result := NotFound; }
    else if !outcome.Acked() { result := UpdateFailed; }
    else { result := Updated; }
  }

  /** `UpdateStatus`; `readable` says that the read does not fail. */
  method UpdateStatus(w: World, c: nat, id: nat, target: PaymentStatus, readable: bool)
    returns (result: UpdateResult, calls: seq<Label>)
    requires w.Valid() && c !in w.st.api.clients
    modifies w
    ensures w.Valid() && c !in w.st.api.clients
    ensures Own(w.trace, ClientActor(c)) == Own(old(w.trace), ClientActor(c)) + calls && |calls| <= 2
    ensures UpdateAnswer(w.st.api, id, target, result)
    ensures |calls| == 0 ==> result.UpdateFailed? && !readable
    ensures |calls| == 1 ==> ReadAnswer(w.st.api, id, target, result)
    ensures |calls| == 2 ==> SwapAnswer(w.st, id, target, result)
    ensures result.UpdateFailed? ==> calls == [] || FailedCall(calls)
  {
    var readFailed: bool := *;
    if readFailed && !readable { return UpdateFailed, []; }
    var done, read := ReadCall(w, c, id, target);
    calls := [read];
    if done.Some? { return done.value, calls; }
    var swap: Label;
    ghost var mine := Own(w.trace, ClientActor(c));
    result, swap := SwapCall(w, c, id, target);
    Chain(Own(old(w.trace), ClientActor(c)), mine, Own(w.trace, ClientActor(c)), [read], [swap]);
    calls := [read] + [swap];
  }
}
