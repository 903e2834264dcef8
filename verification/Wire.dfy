/** Messages and records field by field: what stands in the headers and the body, by the names that are on the wire, and
    what the consumer makes of it. */
module Wire {
  import opened Common
  import opened Messages
  import opened DeadLetter
  import Ledger

  /** The first header with the key has the value. */
  ghost predicate First(headers: seq<Header>, key: string, value: Text) {
    exists i :: 0 <= i < |headers| && FirstAt(headers, i, key, value)
  }

  ghost predicate FirstAt(headers: seq<Header>, i: nat, key: string, value: Text)
    requires i < |headers|
  {
    headers[i] == Header(key, value) && forall j :: 0 <= j < i ==> headers[j].key != key
  }

  lemma {:induction false} FirstIsLookup(headers: seq<Header>, key: string, value: Text)
    requires First(headers, key, value)
    ensures Lookup(headers, key) == value
  {
    var i :| 0 <= i < |headers| && FirstAt(headers, i, key, value);
    LookupIsFirst(headers, key, i);
  }

  lemma {:induction false} LookupIsHeader(headers: seq<Header>, key: string)
    requires Lookup(headers, key) != Str("")
    ensures First(headers, key, Lookup(headers, key))
  {
    if headers[0].key == key {
      assert FirstAt(headers, 0, key, Lookup(headers, key));
    } else {
      LookupIsHeader(headers[1..], key);
      var i :| 0 <= i < |headers[1..]| && FirstAt(headers[1..], i, key, Lookup(headers, key));
      forall j | 0 <= j < i + 1 ensures headers[j].key != key {
        if j > 0 { assert headers[1..][j - 1] == headers[j]; }
      }
      assert FirstAt(headers, i + 1, key, Lookup(headers, key));
    }
  }

  /** A value other than the empty text is the first one exactly when the lookup gives it. */
  lemma FirstExactly(headers: seq<Header>, key: string, value: Text)
    requires value != Str("")
    ensures First(headers, key, value) <==> Lookup(headers, key) == value
  {
    if First(headers, key, value) { FirstIsLookup(headers, key, value); }
    if Lookup(headers, key) == value { LookupIsHeader(headers, key); }
  }

  // ----- what a message asks for

  /** No header gives an event id, or the first one that does is empty. */
  ghost predicate WithoutId(m: Message) { forall v :: First(m.headers, "event_id", v) ==> v == Str("") }

  ghost predicate IsCreatedMessage(m: Message) { First(m.headers, "event_type", Str("payment.created")) }

  /** A created event whose body is no JSON. */
  ghost predicate Unreadable(m: Message) { IsCreatedMessage(m) && m.value.Undecodable? }

  /** It has an id, and it is no created event: none of the ledger's business. */
  ghost predicate OtherEvent(m: Message) { !WithoutId(m) && !IsCreatedMessage(m) }

  predicate ThreeLetters(c: string) { |c| == 3 && 'A' <= c[0] <= 'Z' && 'A' <= c[1] <= 'Z' && 'A' <= c[2] <= 'Z' }

  predicate IsTrimmed(t: Text, raw: Text) {
    match raw
    case Str(s) => t == Str(Trim(s))
    case Uuid(_) => t == raw
  }

  /** A created event under a UUID for a payment id, a positive amount and a currency, texts trimmed and the currency in
      upper case. */
  ghost predicate Orders(m: Message, event: nat, r: Ledger.Request) {
    && First(m.headers, "event_id", Uuid(event)) && IsCreatedMessage(m) && m.value.CreatedBody?
    && IsTrimmed(r.paymentId, m.value.paymentId) && r.amount == m.value.amount
    && r.currency == Upper(Trim(m.value.currency))
    && r.paymentId != Str("") && r.amount > 0 && ThreeLetters(r.currency)
  }

  ghost predicate HasOrder(m: Message) { exists event, r :: Orders(m, event, r) }

  /** It has an id and is a created event with a readable body: the ledger is asked, and may fail. */
  ghost predicate AsksLedger(m: Message) { !WithoutId(m) && IsCreatedMessage(m) && !m.value.Undecodable? }

  lemma WithoutIdExactly(m: Message)
    ensures WithoutId(m) <==> Lookup(m.headers, EVENT_ID) == Str("")
  {
    if Lookup(m.headers, EVENT_ID) != Str("") { LookupIsHeader(m.headers, EVENT_ID); }
    forall v | First(m.headers, "event_id", v) ensures Lookup(m.headers, EVENT_ID) == v {
      FirstIsLookup(m.headers, "event_id", v);
    }
  }

  /** The consumer's branches, and the movement the ledger accepts, in these terms. */
  lemma ReadsAs(m: Message)
    ensures Read(m) == Poison <==> WithoutId(m) || Unreadable(m)
    ensures Read(m) == Ignored <==> OtherEvent(m)
  {
    WithoutIdExactly(m);
    FirstExactly(m.headers, "event_type", Str("payment.created"));
  }

  lemma AsksFor(m: Message, event: nat, r: Ledger.Request)
    ensures MovementOf(m) == Some((event, r)) <==> Orders(m, event, r)
  {
    FirstExactly(m.headers, "event_id", Uuid(event));
    FirstExactly(m.headers, "event_type", Str("payment.created"));
  }

  lemma OrderExactly(m: Message)
    ensures HasOrder(m) <==> MovementOf(m).Some?
    ensures MovementOf(m).Some? ==> Orders(m, MovementOf(m).value.0, MovementOf(m).value.1)
  {
    if MovementOf(m).Some? { AsksFor(m, MovementOf(m).value.0, MovementOf(m).value.1); }
    forall event: nat, r: Ledger.Request | Orders(m, event, r) ensures MovementOf(m) == Some((event, r)) {
      AsksFor(m, event, r);
    }
  }

  // ----- records and republished messages

  /** The lookup's value: the first header's, or the empty text when there is none. */
  ghost predicate Named(headers: seq<Header>, key: string, value: Text) {
    First(headers, key, value) || (value == Str("") && forall v :: !First(headers, key, v))
  }

  /** The record keeps the message whole, with its place, under its event id and type. */
  ghost predicate Keeps(r: Record, m: Message, partition: nat, offset: nat) {
    && r.schemaVersion == 1 && r.sourceTopic == m.topic && r.sourcePartition == partition && r.sourceOffset == offset
    && r.key == m.key && r.value == m.value && r.headers == m.headers
    && Named(m.headers, "event_id", r.eventId) && Named(m.headers, "event_type", r.eventType)
  }

  lemma NamedIsLookup(headers: seq<Header>, key: string, value: Text)
    requires Named(headers, key, value)
    ensures value == Lookup(headers, key)
  {
    if First(headers, key, value) {
      FirstIsLookup(headers, key, value);
    } else if Lookup(headers, key) != Str("") {
      LookupIsHeader(headers, key);
    }
  }

  lemma LookupIsNamed(headers: seq<Header>, key: string)
    ensures Named(headers, key, Lookup(headers, key))
  {
    if Lookup(headers, key) != Str("") {
      LookupIsHeader(headers, key);
    } else if !First(headers, key, Str("")) {
      forall v ensures !First(headers, key, v) {
        if First(headers, key, v) { FirstIsLookup(headers, key, v); }
      }
    }
  }

  /** The cause, cut after 2048 characters. */
  predicate CutTo2048(failure: string, cause: string) {
    failure <= cause && (|cause| <= 2048 ==> failure == cause) && (|cause| > 2048 ==> |failure| == 2048)
  }

  lemma RecordKeeps(m: Message, partition: nat, offset: nat, cause: string, attempts: int, failedAt: int)
    ensures var r := RecordOf(m, partition, offset, cause, attempts, failedAt);
      Keeps(r, m, partition, offset) && CutTo2048(r.failure, cause) && r.attempts == attempts && r.failedAt == failedAt
  {
    LookupIsNamed(m.headers, "event_id");
    LookupIsNamed(m.headers, "event_type");
  }

  /** The record's message again, with the replay's time and audit id behind its headers. */
  predicate Replays(m: Message, r: Record, topic: string, at: Text, audit: nat) {
    && m.topic == topic && m.key == r.key && m.value == r.value
    && m.headers == r.headers + [Header("replayed_at", at), Header("replay_audit_id", Uuid(audit))]
  }

  /** What makes a record replayable. */
  predicate MayReplay(r: Record, topic: string, operator: string, reason: string) {
    r.schemaVersion == 1 && r.eventId != Str("") && r.sourceTopic == topic && operator != "" && reason != ""
  }
}
