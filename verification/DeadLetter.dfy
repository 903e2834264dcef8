/** Dead-letter records, their replay, and how the consumer reads a message. */
module DeadLetter {
  import opened Common
  import opened Messages
  import Ledger

  const SCHEMA_VERSION: int := 1
  const SOURCE_TOPIC: string := "source_topic"
  const REPLAYED_AT: string := "replayed_at"
  const REPLAY_AUDIT_ID: string := "replay_audit_id"
  const MAX_FAILURE: nat := 2048

  datatype Record = Record(
    schemaVersion: int, eventId: Text, eventType: Text, sourceTopic: string, sourcePartition: nat, sourceOffset: nat,
    key: Text, value: Body, headers: seq<Header>, failure: string, attempts: int, failedAt: int)

  function BoundedFailure(cause: string): (f: string)
    ensures f <= cause && |f| <= MAX_FAILURE
    ensures |cause| <= MAX_FAILURE ==> f == cause
  {
    if |cause| > MAX_FAILURE then cause[..MAX_FAILURE] else cause
  }

  function RecordOf(m: Message, partition: nat, offset: nat, cause: string, attempts: int, failedAt: int): (r: Record) {
    Record(SCHEMA_VERSION, Lookup(m.headers, EVENT_ID), Lookup(m.headers, EVENT_TYPE), m.topic, partition, offset,
           m.key, m.value, m.headers, BoundedFailure(cause), attempts, failedAt)
  }

  /** `DeadLetterPublisher.Publish`, up to the write: the record and the envelope's own headers. */
  method BuildRecord(m: Message, partition: nat, offset: nat, cause: string, attempts: int, failedAt: int)
    returns (record: Record, envelope: seq<Header>)
    ensures record == RecordOf(m, partition, offset, cause, attempts, failedAt)
    ensures envelope == [Header(EVENT_ID, record.eventId), Header(EVENT_TYPE, record.eventType),
      Header(SOURCE_TOPIC, Str(m.topic))]
  {
    var headers: seq<Header> := [];
    for i := 0 to |m.headers|
      invariant headers == m.headers[..i]
    {
      headers := headers + [Header(m.headers[i].key, m.headers[i].value)];
    }
    var id := HeaderValue(m.headers, EVENT_ID);
    var eventType := HeaderValue(m.headers, EVENT_TYPE);
    record := Record(SCHEMA_VERSION, id, eventType, m.topic, partition, offset,
                     m.key, m.value, headers, BoundedFailure(cause), attempts, failedAt);
    envelope := [Header(EVENT_ID, record.eventId), Header(EVENT_TYPE, record.eventType),
      Header(SOURCE_TOPIC, Str(record.sourceTopic))];
  }

  function ReplayHeaders(at: Text, audit: nat): (headers: seq<Header>) {
    [Header(REPLAYED_AT, at), Header(REPLAY_AUDIT_ID, Uuid(audit))]
  }

  function ReplayMessage(r: Record, topic: string, at: Text, audit: nat): (message: Message) {
    Message(topic, r.key, r.value, r.headers + ReplayHeaders(at, audit))
  }

  /** The checks at the head of `Replayer.Replay`. */
  predicate Replayable(r: Record, topic: string, operator: string, reason: string) {
    r.schemaVersion == SCHEMA_VERSION && r.eventId != EMPTY && r.sourceTopic == topic && operator != "" && reason != ""
  }

  /** The republished message `Replayer.Replay` builds. */
  method BuildReplay(r: Record, topic: string, at: Text, audit: nat) returns (m: Message)
    ensures m == ReplayMessage(r, topic, at, audit)
  {
    var headers: seq<Header> := [];
    for i := 0 to |r.headers|
      invariant headers == r.headers[..i]
    {
      headers := headers + [Header(r.headers[i].key, r.headers[i].value)];
    }
    headers := headers + [Header(REPLAYED_AT, at), Header(REPLAY_AUDIT_ID, Uuid(audit))];
    m := Message(topic, r.key, r.value, headers);
  }

  // ----- any number of dead-letter and replay cycles

  /** What varies from cycle to cycle. */
  datatype Cycle = Cycle(partition: nat, offset: nat, cause: string, attempts: int, failedAt: int, at: Text, audit: nat)

  function OneCycle(m: Message, c: Cycle): (after: Message) {
    ReplayMessage(RecordOf(m, c.partition, c.offset, c.cause, c.attempts, c.failedAt), m.topic, c.at, c.audit)
  }

  function Cycles(m: Message, cs: seq<Cycle>): (after: Message) {
    if cs == [] then m else OneCycle(Cycles(m, cs[..|cs| - 1]), cs[|cs| - 1])
  }

  function AddedHeaders(cs: seq<Cycle>): (hs: seq<Header>)
    ensures |hs| == 2 * |cs|
    ensures forall i :: 0 <= i < |cs| ==>
      hs[2 * i] == Header(REPLAYED_AT, cs[i].at) && hs[2 * i + 1] == Header(REPLAY_AUDIT_ID, Uuid(cs[i].audit))
  {
    if cs == [] then [] else AddedHeaders(cs[..|cs| - 1]) + ReplayHeaders(cs[|cs| - 1].at, cs[|cs| - 1].audit)
  }

  lemma AddedHeadersMissing(cs: seq<Cycle>, key: string)
    requires key != REPLAYED_AT && key != REPLAY_AUDIT_ID
    ensures !HasKey(AddedHeaders(cs), key)
  {
  }

  /** A message keeps its topic, key, value and headers, followed by one pair of headers per cycle;
      so every lookup but the two replay keys is unchanged. */
  lemma {:induction false} CyclesRoundTrip(m: Message, cs: seq<Cycle>)
    ensures Cycles(m, cs) == Message(m.topic, m.key, m.value, m.headers + AddedHeaders(cs))
    ensures forall key :: key != REPLAYED_AT && key != REPLAY_AUDIT_ID ==>
      Lookup(Cycles(m, cs).headers, key) == Lookup(m.headers, key)
  {
    if cs == [] {
      assert m.headers + [] == m.headers;
    } else {
      var n := |cs| - 1;
      CyclesRoundTrip(m, cs[..n]);
      assert m.headers + AddedHeaders(cs) == (m.headers + AddedHeaders(cs[..n])) + ReplayHeaders(cs[n].at, cs[n].audit);
    }
    forall key | key != REPLAYED_AT && key != REPLAY_AUDIT_ID
      ensures Lookup(m.headers + AddedHeaders(cs), key) == Lookup(m.headers, key)
    {
      LookupAppend(m.headers, AddedHeaders(cs), key);
      AddedHeadersMissing(cs, key);
      LookupMissing(AddedHeaders(cs), key);
      if !HasKey(m.headers, key) { LookupMissing(m.headers, key); }
    }
  }

  // ----- how the consumer reads a message

  /** The branch `HandleMessage` takes, before the ledger is called. */
  datatype Reading =
    | Poison                                             // a permanent error
    | Ignored                                            // logged and acknowledged
    | ToLedger(eventId: Text, request: Ledger.Request)   // handed to the ledger

  /** JSON decoding into the fields the consumer knows; absent fields become zero values. */
  function Decode(value: Body): (request: Option<Ledger.Request>) {
    match value
    case CreatedBody(paymentId, amount, currency) => Some(Ledger.Request(paymentId, amount, currency))
    case StatusBody(paymentId, _, _) => Some(Ledger.Request(paymentId, 0, ""))
    case Undecodable(_) => None
  }

  function Read(m: Message): (reading: Reading) {
    var eventId := Lookup(m.headers, EVENT_ID);
    var eventType := Lookup(m.headers, EVENT_TYPE);
    if eventId == EMPTY then Poison
    else if eventType != PAYMENT_CREATED then Ignored
    else match Decode(m.value)
      case None => Poison
      case Some(request) => ToLedger(eventId, request)
  }

  /** After any number of cycles the consumer takes the same branch with the same event id and request. */
  lemma CyclesReadAlike(m: Message, cs: seq<Cycle>)
    ensures Read(Cycles(m, cs)) == Read(m)
  {
    CyclesRoundTrip(m, cs);
  }

  /** The ledger's verdict on what was read: the event's UUID and the normalised movement, or ErrValidation. */
  function Acceptable(eventId: Text, request: Ledger.Request): (movement: Option<(nat, Ledger.Request)>) {
    match TrimText(eventId)
    case Str(_) => None
    case Uuid(id) =>
      var normal := Ledger.Normalise(request);
      if Ledger.ValidMovement(normal) then Some((id, normal)) else None
  }

  /** The movement the ledger would post for a message, if it accepts it. */
  function MovementOf(m: Message): (movement: Option<(nat, Ledger.Request)>) {
    match Read(m)
    case ToLedger(eventId, request) => Acceptable(eventId, request)
    case _ => None
  }
}
