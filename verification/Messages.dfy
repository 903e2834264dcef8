/** Broker messages: headers are searched by first match, bodies are faithful encodings of payloads. */
module Messages {
  import opened Common

  /** A text field. UUID text is a faithful encoding of the identifier, so it is kept as one;
      every other text does not parse as a UUID. */
  datatype Text = Str(s: string) | Uuid(id: nat)

  const EMPTY: Text := Str("")

  function TrimText(t: Text): (r: Text) {
    match t
    case Str(s) => Str(Trim(s))
    case Uuid(_) => t
  }

  datatype Header = Header(key: string, value: Text)

  datatype PaymentStatus = Pending | Succeeded | Failed

  /** A message value: one of the two event payloads, or bytes that do not decode as JSON. */
  datatype Body =
    | CreatedBody(paymentId: Text, amount: int, currency: string)
    | StatusBody(paymentId: Text, previous: PaymentStatus, next: PaymentStatus)
    | Undecodable(bytes: string)

  datatype Message = Message(topic: string, key: Text, value: Body, headers: seq<Header>)

  const EVENT_ID: string := "event_id"
  const EVENT_TYPE: string := "event_type"
  const AGGREGATE_TYPE: string := "aggregate_type"
  const PAYMENT_CREATED: Text := Str("payment.created")
  const STATUS_CHANGED: Text := Str("payment.status_changed")
  const AGGREGATE_PAYMENT: Text := Str("payment")

  predicate HasKey(headers: seq<Header>, key: string) {
    exists i :: 0 <= i < |headers| && headers[i].key == key
  }

  /** The value of the first header with the key, or the empty text. */
  function Lookup(headers: seq<Header>, key: string): (value: Text) {
    if headers == [] then EMPTY
    else if headers[0].key == key then headers[0].value
    else Lookup(headers[1..], key)
  }

  /** `headerValue`. */
  method HeaderValue(headers: seq<Header>, key: string) returns (value: Text)
    ensures value == Lookup(headers, key)
  {
    for i := 0 to |headers|
      invariant Lookup(headers, key) == Lookup(headers[i..], key)
    {
      if headers[i].key == key { return headers[i].value; }
    }
    return EMPTY;
  }

  /** What first match means: the value at the least matching index. */
  lemma {:induction false} LookupIsFirst(headers: seq<Header>, key: string, i: nat)
    requires i < |headers| && headers[i].key == key
    requires forall j :: 0 <= j < i ==> headers[j].key != key
    ensures Lookup(headers, key) == headers[i].value
  {
    if i > 0 { LookupIsFirst(headers[1..], key, i - 1); }
  }

  /** Appending headers never changes a key that is already there, and is a lookup in the tail otherwise. */
  lemma {:induction false} LookupAppend(headers: seq<Header>, more: seq<Header>, key: string)
    ensures Lookup(headers + more, key) == if HasKey(headers, key) then Lookup(headers, key) else Lookup(more, key)
  {
    if headers == [] {
      assert headers + more == more;
    } else {
      assert (headers + more)[1..] == headers[1..] + more;
      if headers[0].key != key {
        LookupAppend(headers[1..], more, key);
        if HasKey(headers[1..], key) {
          var i :| 0 <= i < |headers[1..]| && headers[1..][i].key == key;
          assert headers[i + 1].key == key;
        }
        if HasKey(headers, key) {
          var i :| 0 <= i < |headers| && headers[i].key == key;
          assert headers[1..][i - 1].key == key;
        }
      }
    }
  }

  lemma {:induction false} LookupMissing(headers: seq<Header>, key: string)
    requires !HasKey(headers, key)
    ensures Lookup(headers, key) == EMPTY
  {
    if headers != [] {
      forall i | 0 <= i < |headers[1..]| ensures headers[1..][i].key != key {
        assert headers[1..][i] == headers[i + 1];
      }
      assert headers[0].key != key;
      LookupMissing(headers[1..], key);
    }
  }
}
