/** `PublishBatch` and `publishOne`, run against the world: whatever the others do in between, the publisher's own
    steps are one claim and then, per claimed event, one write and the one mark that matches the write's result. */
module OutboxPublisherProgram {
  import opened Common
  import opened Messages
  import opened System
  import opened OutboxProtocol
  import opened World

  // ----- the store and the writer; `call` is the step that was taken

  /** A claimed row: `publishing`, on at least its first attempt, and returned with its own contents. */
  predicate Taken(b: Box, c: Claim) {
    c.id in b.rows && b.rows[c.id].status == Publishing && b.rows[c.id].attempts >= 1 && b.rows[c.id].event == c.event
  }

  predicate AllTaken(b: Box, events: seq<Claim>) { forall i :: 0 <= i < |events| ==> Taken(b, events[i]) }

  lemma ClaimTakes(b: Box, p: nat, limit: int, chosen: seq<nat>)
    requires CanClaim(b, limit, chosen)
    ensures AllTaken(TakeBatch(b, p, limit, chosen, Done), Claims(b.rows, chosen))
  {
    forall i | 0 <= i < |chosen| ensures Taken(TakeBatch(b, p, limit, chosen, Done), Claims(b.rows, chosen)[i]) {
      assert Claimable(b, chosen[i]) && chosen[i] in chosen;
    }
  }

  /** The rows a claim may take: waiting ones, and those whose publication failed. */
  function Unclaimed(b: Box): (ids: set<nat>) {
    set id | id in b.rows && (b.rows[id].status == Waiting || b.rows[id].status == Unsent)
  }

  /** LIMIT and SKIP LOCKED: at most n claimable rows; exactly min(n, all) when nothing is locked. */
  method ChooseRows(b: Box, limit: int, locked: nat) returns (chosen: seq<nat>)
    ensures CanClaim(b, limit, chosen)
    ensures locked == 0 ==> |chosen| == Min(if limit > 0 then limit else 25, |Unclaimed(b)|)
  {
    chosen := [];
    var n := if limit <= 0 then 25 else limit;
    var rest := Unclaimed(b);
    while rest != {} && |chosen| < n && |rest| > locked
      invariant |chosen| <= n && NoDuplicates(chosen) && rest <= Unclaimed(b)
      invariant forall i :: 0 <= i < |chosen| ==> chosen[i] in Unclaimed(b) && chosen[i] !in rest
      invariant |chosen| + |rest| == |Unclaimed(b)|
      decreases |rest|
    {
      var x :| x in rest;
      rest := rest - {x};
      chosen := chosen + [x];
    }
  }

  /** What the claim's caller is given. */
  function Given(b: Box, chosen: seq<nat>, outcome: Outcome): (events: seq<Claim>)
    requires forall i :: 0 <= i < |chosen| ==> chosen[i] in b.rows
  {
    if outcome.Acked() then Claims(b.rows, chosen) else []
  }

  lemma ClaimLeaves(b: Box, p: nat, limit: int, chosen: seq<nat>, outcome: Outcome)
    requires p !in b.publishers && CanClaim(b, limit, chosen)
    ensures forall i :: 0 <= i < |chosen| ==> Claimable(b, chosen[i])
    ensures AllTaken(TakeBatch(b, p, limit, chosen, outcome), Given(b, chosen, outcome))
    ensures Left(TakeBatch(b, p, limit, chosen, outcome), p, Given(b, chosen, outcome))
    ensures |Given(b, chosen, outcome)| == if outcome.Acked() then |chosen| else 0
    ensures forall i :: 0 <= i < |Given(b, chosen, outcome)| ==> Given(b, chosen, outcome)[i].id == chosen[i]
  {
    if outcome.Acked() { ClaimTakes(b, p, limit, chosen); }
  }

  /** The claim of the chosen rows. */
  method ClaimCall(w: World, p: nat, limit: int, chosen: seq<nat>)
    returns (events: seq<Claim>, failed: bool, call: Label)
    requires w.Valid() && p !in w.st.box.publishers && CanClaim(w.st.box, limit, chosen)
    modifies w
    ensures w.Valid() && Own(w.trace, PublisherActor(p)) == Own(old(w.trace), PublisherActor(p)) + [call]
    ensures |w.st.bus.partitions| == old(|w.st.bus.partitions|)
    ensures IsClaim(call, p, limit, events, failed) && |events| == (if failed then 0 else |chosen|)
    ensures AllTaken(w.st.box, events) && Left(w.st.box, p, events)
  {
    var outcome: Outcome := *;
    call := Publish(p, ClaimPending(limit, chosen, outcome));
    failed := !outcome.Acked();
    ClaimLeaves(w.st.box, p, limit, chosen, outcome);
    events := Given(w.st.box, chosen, outcome);
    w.Act(PublisherActor(p), call);
  }

  /** `ClaimPending`; `alone` says that no other actor steps in before it and no row is locked. */
  method ClaimBatch(w: World, p: nat, limit: int, alone: bool)
    returns (events: seq<Claim>, failed: bool, call: Label)
    requires w.Valid() && p !in w.st.box.publishers
    modifies w
    ensures w.Valid() && Own(w.trace, PublisherActor(p)) == Own(old(w.trace), PublisherActor(p)) + [call]
    ensures |w.st.bus.partitions| == old(|w.st.bus.partitions|)
    ensures IsClaim(call, p, limit, events, failed)
    ensures AllTaken(w.st.box, events) && |events| <= (if limit > 0 then limit else 25)
    ensures alone && !failed ==> |events| == Min(if limit > 0 then limit else 25, |Unclaimed(old(w.st.box))|)
    ensures Left(w.st.box, p, events)
  {
    var locked := 0;
    if !alone {
      w.Interfere(PublisherActor(p));
      locked := AnyNat();
    }
    var chosen := ChooseRows(w.st.box, limit, locked);
    events, failed, call := ClaimCall(w, p, limit, chosen);
  }

  /** One claim call; when it succeeds the returned events are the chosen rows, at most the batch limit. */
  ghost predicate IsClaim(call: Label, p: nat, limit: int, events: seq<Claim>, failed: bool) {
    && call.Publish? && call.publisher == p && call.call.ClaimPending? && call.call.limit == limit
    && (failed <==> !call.call.outcome.Acked())
    && (if failed then events == []
        else |events| == |call.call.chosen| <= BatchLimit(limit) &&
             forall i :: 0 <= i < |events| ==> events[i].id == call.call.chosen[i])
  }

  /** The write call of an event. */
  predicate IsWrite(call: Label, p: nat, id: nat, failed: bool) {
    call.Publish? && call.publisher == p && call.call.Write? && call.call.id == id && call.call.acked == !failed
  }

  /** The mark call of an event: `MarkPublished` or `MarkFailed`. */
  predicate IsMark(call: Label, p: nat, id: nat, published: bool) {
    call.Publish? && call.publisher == p && call.call.Mark? && call.call.id == id && call.call.published == published
  }

  method WriteMessage(w: World, p: nat, e: Claim, m: Message, carrier: seq<Header>) returns (failed: bool, call: Label)
    requires w.Valid() && |w.st.bus.partitions| > 0 && Working(w.st.box, p, e, None)
    requires m == EventMessage(w.cfg.topic, e, carrier)
    modifies w
    ensures w.Valid() && Own(w.trace, PublisherActor(p)) == Own(old(w.trace), PublisherActor(p)) + [call]
    ensures |w.st.bus.partitions| == old(|w.st.bus.partitions|)
    ensures IsWrite(call, p, e.id, failed) && (!failed ==> OnTopic(w.st.bus, m))
    ensures Working(w.st.box, p, e, Some(!failed)) && SameQueue(old(w.st.box), w.st.box, p)
  {
    w.Interfere(PublisherActor(p));
    var to := AnyNat();
    var extra := AnyNat();
    var acked: bool := *;
    if to >= |w.st.bus.partitions| { to := 0; }
    var copies := if acked then extra + 1 else extra;
    call := Publish(p, Write(e.id, carrier, to, copies, acked));
    if acked { AppendedOnTopic(w.st.bus, to, m, copies); }
    w.Act(PublisherActor(p), call);
    return !acked, call;
  }

  /** The publisher's next event is e, written with that result or not yet. */
  predicate Working(b: Box, p: nat, e: Claim, wrote: Option<bool>) {
    WorksOn(b, p, e.id, wrote) && b.publishers[p].queue[0] == e
  }

  predicate SameQueue(b: Box, b': Box, p: nat) {
    p in b.publishers && p in b'.publishers && b'.publishers[p].queue == b.publishers[p].queue
  }

  lemma HeadIsOwned(cfg: Config, partitions: nat, schedule: seq<Label>, p: nat)
    requires p in Reached(cfg, partitions, schedule).box.publishers
    ensures var b := Reached(cfg, partitions, schedule).box; var q := b.publishers[p].queue;
      q != [] && q[0].id in b.rows && b.rows[q[0].id].status == Publishing
  {
    ReachedOwned(cfg, partitions, schedule);
    var b := Reached(cfg, partitions, schedule).box;
    assert QueueOk(b, b.publishers[p]);
    assert ClaimOk(b, b.publishers[p], 0);
  }

  /** The row has its result, and a published one its stamp. */
  predicate Marked(b: Box, id: nat, published: bool, now: int) {
    id in b.rows && b.rows[id].status == (if published then Published else Unsent) &&
    (published ==> b.rows[id].publishedAt == Some(now))
  }

  /** The publisher has those events left, and none of them written; with none left it is idle. */
  predicate Left(b: Box, p: nat, events: seq<Claim>) {
    if events == [] then p !in b.publishers else p in b.publishers && b.publishers[p] == Publisher(events, None)
  }

  /** `MarkPublished` or `MarkFailed`, for the event at the head of the queue; an error is only logged. */
  method MarkEvent(w: World, p: nat, id: nat, published: bool) returns (failed: bool, call: Label)
    requires w.Valid() && WorksOn(w.st.box, p, id, Some(published))
    modifies w
    ensures w.Valid() && Own(w.trace, PublisherActor(p)) == Own(old(w.trace), PublisherActor(p)) + [call]
    ensures |w.st.bus.partitions| == old(|w.st.bus.partitions|)
    ensures IsMark(call, p, id, published)
    ensures !failed ==> Marked(w.st.box, id, published, w.st.now)
    ensures Left(w.st.box, p, old(w.st.box.publishers[p].queue)[1..])
  {
    w.Interfere(PublisherActor(p));
    var outcome: Outcome := *;
    HeadIsOwned(w.cfg, w.partitions, w.trace, p);
    call := Publish(p, Mark(id, published, outcome));
    w.Act(PublisherActor(p), call);
    return !outcome.Acked(), call;
  }

  // ----- the program

  /** The event's message, field by field, with whatever the tracer injects behind its headers. */
  predicate IsMessageOf(m: Message, topic: string, e: Claim, carrier: seq<Header>) {
    && m.topic == topic && m.key == e.event.aggregateId && m.value == e.event.payload
    && m.headers == [Header("event_id", Uuid(e.id)), Header("event_type", e.event.eventType),
                     Header("aggregate_type", Str("payment"))] + carrier
  }

  /** `publishOne`: the message, header by header, and the write. */
  method PublishOne(w: World, p: nat, e: Claim, carrier: seq<Header>) returns (failed: bool, call: Label)
    requires w.Valid() && |w.st.bus.partitions| > 0 && Working(w.st.box, p, e, None)
    modifies w
    ensures w.Valid() && Own(w.trace, PublisherActor(p)) == Own(old(w.trace), PublisherActor(p)) + [call]
    ensures |w.st.bus.partitions| == old(|w.st.bus.partitions|)
    ensures IsWrite(call, p, e.id, failed)
    ensures !failed ==> exists m :: OnTopic(w.st.bus, m) && IsMessageOf(m, w.cfg.topic, e, carrier)
    ensures Working(w.st.box, p, e, Some(!failed)) && SameQueue(old(w.st.box), w.st.box, p)
  {
    var headers := [Header(EVENT_ID, Uuid(e.id)), Header(EVENT_TYPE, e.event.eventType),
                    Header(AGGREGATE_TYPE, AGGREGATE_PAYMENT)];
    var i := 0;
    while i < |carrier|
      invariant 0 <= i <= |carrier|
      invariant headers == EventMessage(w.cfg.topic, e, carrier[..i]).headers
    {
      headers := headers + [carrier[i]];
      i := i + 1;
    }
    assert carrier[..|carrier|] == carrier;
    var m := Message(w.cfg.topic, e.event.aggregateId, e.event.payload, headers);
    assert IsMessageOf(m, w.cfg.topic, e, carrier);
    failed, call := WriteMessage(w, p, e, m, carrier);
  }

  /** The calls for the first n events, after the claim: per event, in claim order, its write and the mark
      that matches the write's result. */
  predicate PairsDone(calls: seq<Label>, p: nat, events: seq<Claim>, n: nat)
    requires n <= |events|
  {
    |calls| == 1 + 2 * n && forall i :: 0 <= i < n ==> PairAt(calls, p, events[i].id, i)
  }

  predicate PairAt(calls: seq<Label>, p: nat, id: nat, i: nat)
    requires 2 * i + 2 < |calls|
  {
    var failed := calls[2 * i + 1].Publish? && calls[2 * i + 1].call.Write? && !calls[2 * i + 1].call.acked;
    IsWrite(calls[2 * i + 1], p, id, failed) && IsMark(calls[2 * i + 2], p, id, !failed)
  }

  lemma OnePairMore(calls: seq<Label>, p: nat, events: seq<Claim>, n: nat, write: Label, mark: Label, failed: bool)
    requires n < |events| && PairsDone(calls, p, events, n)
    requires IsWrite(write, p, events[n].id, failed) && IsMark(mark, p, events[n].id, !failed)
    ensures PairsDone(calls + [write, mark], p, events, n + 1)
  {
    var longer := calls + [write, mark];
    forall i | 0 <= i < n + 1 ensures PairAt(longer, p, events[i].id, i) {
      if i < n { assert PairAt(calls, p, events[i].id, i); }
    }
  }

  /** The write, then the mark, of one claimed event. */
  method PublishAndMark(w: World, p: nat, events: seq<Claim>, i: nat, calls: seq<Label>) returns (more: seq<Label>)
    requires w.Valid() && |w.st.bus.partitions| > 0 && i < |events| && Left(w.st.box, p, events[i..])
    requires PairsDone(calls, p, events, i)
    modifies w
    ensures w.Valid() && |w.st.bus.partitions| > 0 && Left(w.st.box, p, events[i + 1..])
    ensures Own(w.trace, PublisherActor(p)) == Own(old(w.trace), PublisherActor(p)) + more
    ensures |more| == 2 && PairsDone(calls + more, p, events, i + 1)
  {
    var carrier: seq<Header> := *;
    var writeFailed, write := PublishOne(w, p, events[i], carrier);
    var markFailed, mark := MarkEvent(w, p, events[i].id, !writeFailed);
    more := [write, mark];
    OnePairMore(calls, p, events, i, write, mark, writeFailed);
    assert events[i..][1..] == events[i + 1..];
  }

  method PublishBatch(w: World, p: nat, limit: int, alone: bool)
    returns (failed: bool, events: seq<Claim>, calls: seq<Label>)
    requires w.Valid() && p !in w.st.box.publishers && |w.st.bus.partitions| > 0
    modifies w
    ensures w.Valid() && p !in w.st.box.publishers
    ensures Own(w.trace, PublisherActor(p)) == Own(old(w.trace), PublisherActor(p)) + calls
    ensures PairsDone(calls, p, events, |events|) && IsClaim(calls[0], p, limit, events, failed)
    ensures alone && !failed ==> |events| == Min(if limit > 0 then limit else 25, |Unclaimed(old(w.st.box))|)
  {
    var call: Label;
    events, failed, call := ClaimBatch(w, p, limit, alone);
    calls := [call];
    if failed { return; }
    for i := 0 to |events|
      invariant w.Valid() && |w.st.bus.partitions| > 0 && Left(w.st.box, p, events[i..])
      invariant Own(w.trace, PublisherActor(p)) == Own(old(w.trace), PublisherActor(p)) + calls
      invariant PairsDone(calls, p, events, i) && IsClaim(calls[0], p, limit, events, false)
    {
      var more := PublishAndMark(w, p, events, i, calls);
      calls := calls + more;
    }
  }
}
