/** Outbox ownership: whatever the interleaving and the crashes, claimed rows have one owner, every claim
    issues at most one write and one mark, and a published row stays published. */
module OutboxProtocol {
  import opened Common
  import opened System

  /** Rows keep the event they were inserted with; nothing was counted for events never inserted. */
  ghost predicate RowsOk(b: Box) {
    && (forall id :: id in b.rows ==> id in b.events && b.rows[id].event == b.events[id])
    && (forall id :: id in b.writes || id in b.marks ==> id in b.events)
    && (forall id :: id in b.rows ==> Count(b.marks, id) <= Count(b.writes, id) <= b.rows[id].attempts)
  }

  /** Whether the i-th event of the queue has been written by this claim. */
  predicate Written(p: Publisher, i: nat) { i == 0 && p.wrote.Some? }

  /** A claimed event: its row is `publishing`, and this claim's write and mark are still unspent. */
  ghost predicate ClaimOk(b: Box, p: Publisher, i: nat)
    requires i < |p.queue|
  {
    var c := p.queue[i];
    && c.id in b.rows && b.rows[c.id].status == Publishing && c.event == b.rows[c.id].event
    && Count(b.marks, c.id) < b.rows[c.id].attempts
    && (if Written(p, i) then Count(b.marks, c.id) < Count(b.writes, c.id)
        else Count(b.writes, c.id) < b.rows[c.id].attempts)
  }

  ghost predicate QueueOk(b: Box, p: Publisher) {
    && p.queue != []
    && (forall i :: 0 <= i < |p.queue| ==> ClaimOk(b, p, i))
    && (forall i, j :: 0 <= i < j < |p.queue| ==> p.queue[i].id != p.queue[j].id)
  }

  ghost predicate Disjoint(p: Publisher, q: Publisher) {
    forall i, j :: 0 <= i < |p.queue| && 0 <= j < |q.queue| ==> p.queue[i].id != q.queue[j].id
  }

  ghost predicate Owned(b: Box) {
    && RowsOk(b)
    && (forall p :: p in b.publishers ==> QueueOk(b, b.publishers[p]))
    && (forall p, q :: p in b.publishers && q in b.publishers && p != q ==> Disjoint(b.publishers[p], b.publishers[q]))
  }

  // ----- each step keeps ownership

  /** The row and the counters of an event are what they were. */
  ghost predicate Untouched(b: Box, b': Box, id: nat) {
    && id in b.rows && id in b'.rows && b'.rows[id] == b.rows[id]
    && Count(b'.writes, id) == Count(b.writes, id) && Count(b'.marks, id) == Count(b.marks, id)
  }

  lemma QueueUntouched(b: Box, b': Box, p: Publisher)
    requires QueueOk(b, p)
    requires forall i :: 0 <= i < |p.queue| ==> Untouched(b, b', p.queue[i].id)
    ensures QueueOk(b', p)
  {
    forall i | 0 <= i < |p.queue| ensures ClaimOk(b', p, i) {
      assert ClaimOk(b, p, i);
      assert Untouched(b, b', p.queue[i].id);
    }
  }

  /** A step that leaves every claimed event alone and starts no publisher. */
  lemma FrameOwned(b: Box, b': Box)
    requires Owned(b) && RowsOk(b')
    requires forall p :: p in b'.publishers ==> p in b.publishers && b'.publishers[p] == b.publishers[p]
    requires forall id :: id in b.rows && b.rows[id].status == Publishing ==> Untouched(b, b', id)
    ensures Owned(b')
  {
    forall p | p in b'.publishers ensures QueueOk(b', b'.publishers[p]) {
      assert QueueOk(b, b.publishers[p]);
      forall i | 0 <= i < |b.publishers[p].queue| ensures Untouched(b, b', b.publishers[p].queue[i].id) {
        assert ClaimOk(b, b.publishers[p], i);
      }
      QueueUntouched(b, b', b.publishers[p]);
    }
    forall p, q | p in b'.publishers && q in b'.publishers && p != q
      ensures Disjoint(b'.publishers[p], b'.publishers[q])
    {
      assert Disjoint(b.publishers[p], b.publishers[q]);
    }
  }

  lemma NewQueue(b: Box, b': Box, chosen: seq<nat>)
    requires RowsOk(b) && b' == b.(rows := ClaimRows(b.rows, chosen), publishers := b'.publishers)
    requires chosen != [] && NoDuplicates(chosen) && forall i :: 0 <= i < |chosen| ==> chosen[i] in b.rows
    ensures QueueOk(b', Publisher(Claims(b.rows, chosen), None))
  {
  }

  lemma ChosenClaimable(b: Box, limit: int, chosen: seq<nat>, id: nat)
    requires CanClaim(b, limit, chosen)
    ensures id in chosen ==> Claimable(b, id)
  {
  }

  lemma ClaimOwned(b: Box, publisher: nat, limit: int, chosen: seq<nat>, outcome: Outcome)
    requires Owned(b) && publisher !in b.publishers && CanClaim(b, limit, chosen)
    ensures Owned(TakeBatch(b, publisher, limit, chosen, outcome))
  {
    if outcome.TookEffect() {
      var claimed := b.(rows := ClaimRows(b.rows, chosen));
      forall id | id in b.rows && b.rows[id].status == Publishing ensures Untouched(b, claimed, id) {
        ChosenClaimable(b, limit, chosen, id);
      }
      FrameOwned(b, claimed);
      if outcome.Acked() && chosen != [] { StartOwned(b, publisher, limit, chosen); }
    }
  }

  lemma StartOwned(b: Box, publisher: nat, limit: int, chosen: seq<nat>)
    requires Owned(b) && publisher !in b.publishers && CanClaim(b, limit, chosen) && chosen != []
    requires Owned(b.(rows := ClaimRows(b.rows, chosen)))
    ensures Owned(TakeBatch(b, publisher, limit, chosen, Done))
  {
    var b' := TakeBatch(b, publisher, limit, chosen, Done);
    var claimed := b.(rows := ClaimRows(b.rows, chosen));
    var mine := b'.publishers[publisher];
    NewQueue(b, b', chosen);
    forall p | p in b.publishers ensures QueueOk(b', b.publishers[p]) && Disjoint(b.publishers[p], mine) {
      assert QueueOk(b, b.publishers[p]);
      assert QueueOk(claimed, b.publishers[p]);
      QueueUntouchedBy(claimed, b', b.publishers[p]);
      forall i, j | 0 <= i < |b.publishers[p].queue| && 0 <= j < |mine.queue|
        ensures b.publishers[p].queue[i].id != mine.queue[j].id
      {
        assert ClaimOk(b, b.publishers[p], i);
        assert Claimable(b, chosen[j]);
      }
    }
    forall p, q | p in b'.publishers && q in b'.publishers && p != q
      ensures Disjoint(b'.publishers[p], b'.publishers[q])
    {
      if p != publisher && q != publisher {
        assert Disjoint(b.publishers[p], b.publishers[q]);
      } else if p == publisher {
        assert Disjoint(b.publishers[q], mine);
      }
    }
  }

  lemma QueueUntouchedBy(b: Box, b': Box, p: Publisher)
    requires QueueOk(b, p) && b' == b.(publishers := b'.publishers)
    ensures QueueOk(b', p)
  {
    forall i | 0 <= i < |p.queue| ensures ClaimOk(b', p, i) {
      assert ClaimOk(b, p, i);
    }
  }

  /** A step on behalf of one publisher that only spends the event at the head of its queue. */
  lemma HeadStepOwned(b: Box, b': Box, publisher: nat)
    requires Owned(b) && RowsOk(b') && publisher in b.publishers && b.publishers[publisher].queue != []
    requires forall p :: p in b'.publishers && p != publisher ==>
      p in b.publishers && b'.publishers[p] == b.publishers[p]
    requires forall id :: id in b.rows && id != b.publishers[publisher].queue[0].id ==> Untouched(b, b', id)
    requires publisher in b'.publishers ==> QueueOk(b', b'.publishers[publisher])
    requires publisher in b'.publishers ==> forall i :: 0 <= i < |b'.publishers[publisher].queue| ==>
      b'.publishers[publisher].queue[i] in b.publishers[publisher].queue
    ensures Owned(b')
  {
    var mine := b.publishers[publisher];
    forall p | p in b'.publishers && p != publisher ensures QueueOk(b', b'.publishers[p]) {
      var theirs := b.publishers[p];
      assert QueueOk(b, theirs) && Disjoint(theirs, mine);
      forall i | 0 <= i < |theirs.queue| ensures Untouched(b, b', theirs.queue[i].id) {
        assert ClaimOk(b, theirs, i);
        assert theirs.queue[i].id != mine.queue[0].id;
      }
      QueueUntouched(b, b', theirs);
    }
    forall p, q | p in b'.publishers && q in b'.publishers && p != q
      ensures Disjoint(b'.publishers[p], b'.publishers[q])
    {
      assert Disjoint(b.publishers[p], b.publishers[q]);
    }
  }

  lemma WriteOwned(b: Box, publisher: nat, acked: bool)
    requires Owned(b) && publisher in b.publishers && b.publishers[publisher].wrote == None
    ensures QueueOk(b, b.publishers[publisher])
    ensures Owned(AfterWrite(b, publisher, acked))
  {
    var b' := AfterWrite(b, publisher, acked);
    var mine, mine' := b.publishers[publisher], b'.publishers[publisher];
    assert QueueOk(b, mine);
    assert ClaimOk(b, mine, 0);
    forall i | 0 <= i < |mine'.queue| ensures ClaimOk(b', mine', i) {
      assert ClaimOk(b, mine, i);
    }
    HeadStepOwned(b, b', publisher);
  }

  lemma MarkRowsOk(b: Box, publisher: nat, now: int, outcome: Outcome)
    requires Owned(b) && publisher in b.publishers && b.publishers[publisher].wrote.Some?
    ensures QueueOk(b, b.publishers[publisher])
    ensures var b' := AfterMark(b, publisher, now, outcome); var head := b.publishers[publisher].queue[0].id;
      RowsOk(b') && (forall id :: id in b.rows && id != head ==> Untouched(b, b', id))
  {
    assert QueueOk(b, b.publishers[publisher]);
    assert ClaimOk(b, b.publishers[publisher], 0);
  }

  lemma MarkOwned(b: Box, publisher: nat, now: int, outcome: Outcome)
    requires Owned(b) && publisher in b.publishers && b.publishers[publisher].wrote.Some?
    ensures QueueOk(b, b.publishers[publisher])
    ensures Owned(AfterMark(b, publisher, now, outcome))
  {
    MarkRowsOk(b, publisher, now, outcome);
    var b' := AfterMark(b, publisher, now, outcome);
    var mine := b.publishers[publisher];
    if publisher in b'.publishers {
      var mine' := b'.publishers[publisher];
      forall i | 0 <= i < |mine'.queue| ensures ClaimOk(b', mine', i) {
        assert mine'.queue[i] == mine.queue[i + 1];
        assert ClaimOk(b, mine, i + 1);
        assert Untouched(b, b', mine.queue[i + 1].id);
      }
    }
    HeadStepOwned(b, b', publisher);
  }

  /** A step of the API inserts at most one row, under a fresh id. */
  lemma InsertsAtMostOne(s: State, c: nat, call: ApiCall)
    requires ClientEnabled(s, c, call)
    ensures var b' := ClientStep(s, c, call).box;
      b' == s.box || ((call.Insert? || call.Swap?) && call.event !in s.box.events && call.event in b'.events &&
                      b' == InsertEvent(s.box, call.event, b'.events[call.event]).(created := b'.created))
  {
  }

  lemma InsertOwned(b: Box, b': Box, id: nat, e: Event)
    requires Owned(b) && id !in b.events && b' == InsertEvent(b, id, e).(created := b'.created)
    ensures Owned(b')
  {
    FrameOwned(b, b');
  }

  lemma ClientOwned(s: State, c: nat, call: ApiCall)
    requires Owned(s.box) && ClientEnabled(s, c, call)
    ensures Owned(ClientStep(s, c, call).box)
  {
    InsertsAtMostOne(s, c, call);
    var b' := ClientStep(s, c, call).box;
    if b' != s.box { InsertOwned(s.box, b', call.event, b'.events[call.event]); }
  }

  lemma PublisherOwned(cfg: Config, s: State, p: nat, call: PublisherCall)
    requires Owned(s.box) && PublisherEnabled(s, p, call)
    ensures Owned(PublisherStep(cfg, s, p, call).box)
  {
    match call
    case ClaimPending(limit, chosen, outcome) => ClaimOwned(s.box, p, limit, chosen, outcome);
    case Write(_, _, _, _, acked) => WriteOwned(s.box, p, acked);
    case Mark(_, _, outcome) => MarkOwned(s.box, p, s.now, outcome);
    case PublisherCrash => FrameOwned(s.box, s.box.(publishers := Without(s.box.publishers, p)));
  }

  lemma PurgeOwned(cfg: Config, s: State, cutoff: int, batch: PurgeCall)
    requires Owned(s.box) && PurgeEnabled(cfg, s, cutoff, batch)
    ensures Owned(PurgeStep(s, batch).box)
  {
    if batch.PurgeOutbox? { FrameOwned(s.box, PurgeStep(s, batch).box); }
  }

  lemma StepOwned(cfg: Config, s: State, l: Label)
    requires Owned(s.box)
    ensures Owned(Step(cfg, s, l).box)
  {
    if Enabled(cfg, s, l) {
      match l
      case Client(c, request) => ClientOwned(s, c, request);
      case Publish(p, call) => PublisherOwned(cfg, s, p, call);
      case Purge(cutoff, batch) => PurgeOwned(cfg, s, cutoff, batch);
      case _ =>
    }
  }

  lemma {:induction false} ReachedOwned(cfg: Config, partitions: nat, schedule: seq<Label>)
    ensures Owned(Reached(cfg, partitions, schedule).box)
  {
    if schedule != [] {
      var n := |schedule| - 1;
      ReachedOwned(cfg, partitions, schedule[..n]);
      StepOwned(cfg, Reached(cfg, partitions, schedule[..n]), schedule[n]);
    }
  }

  // ----- what ownership gives

  /** At most one live publisher holds an event, at one place of its queue, and its row is `publishing`. */
  lemma OneOwner(cfg: Config, partitions: nat, schedule: seq<Label>, p: nat, i: nat, q: nat, j: nat)
    requires var b := Reached(cfg, partitions, schedule).box;
      p in b.publishers && q in b.publishers && i < |b.publishers[p].queue| && j < |b.publishers[q].queue| &&
      b.publishers[p].queue[i].id == b.publishers[q].queue[j].id
    ensures p == q && i == j
    ensures var b := Reached(cfg, partitions, schedule).box; var id := b.publishers[p].queue[i].id;
      id in b.rows && b.rows[id].status == Publishing
  {
    ReachedOwned(cfg, partitions, schedule);
    var b := Reached(cfg, partitions, schedule).box;
    assert QueueOk(b, b.publishers[p]);
    assert ClaimOk(b, b.publishers[p], i);
    assert p != q ==> Disjoint(b.publishers[p], b.publishers[q]);
  }

  /** Every claim pays for at most one write and one mark: an event's marks are at most its writes,
      and its writes at most the attempts its row counts. */
  lemma WritesWithinAttempts(cfg: Config, partitions: nat, schedule: seq<Label>, id: nat)
    requires id in Reached(cfg, partitions, schedule).box.rows
    ensures var b := Reached(cfg, partitions, schedule).box;
      Count(b.marks, id) <= Count(b.writes, id) <= b.rows[id].attempts
  {
    ReachedOwned(cfg, partitions, schedule);
  }

  /** A published row is kept as it is, unless retention removes it. */
  ghost predicate KeptOrPurged(cfg: Config, s: State, l: Label, b': Box, id: nat)
    requires id in s.box.rows
  {
    if id in b'.rows then b'.rows[id] == s.box.rows[id]
    else l.Purge? && l.batch.PurgeOutbox? && id in l.batch.rows && s.box.rows[id].publishedAt.Some? &&
         s.box.rows[id].publishedAt.value < s.now - cfg.outboxRetention
  }

  lemma PublishedPurge(cfg: Config, s: State, cutoff: int, batch: PurgeCall, id: nat)
    requires PurgeEnabled(cfg, s, cutoff, batch) && id in s.box.rows
    ensures KeptOrPurged(cfg, s, Purge(cutoff, batch), PurgeStep(s, batch).box, id)
  {
  }

  lemma PublishedByPublisher(cfg: Config, s: State, p: nat, call: PublisherCall, id: nat)
    requires Owned(s.box) && PublisherEnabled(s, p, call) && id in s.box.rows && s.box.rows[id].status == Published
    ensures var b' := PublisherStep(cfg, s, p, call).box; id in b'.rows && b'.rows[id] == s.box.rows[id]
  {
    match call
    case ClaimPending(limit, chosen, outcome) => ClaimKeeps(s.box, p, limit, chosen, outcome, id);
    case Mark(_, _, outcome) => MarkKeeps(s.box, p, s.now, outcome, id);
    case _ =>
  }

  /** No step touches a published row except retention, which removes it once it is old enough. */
  lemma PublishedStep(cfg: Config, s: State, l: Label, id: nat)
    requires Owned(s.box) && id in s.box.rows && s.box.rows[id].status == Published
    ensures KeptOrPurged(cfg, s, l, Step(cfg, s, l).box, id)
  {
    if Enabled(cfg, s, l) {
      match l
      case Client(c, request) => InsertsAtMostOne(s, c, request);
      case Publish(p, call) => PublishedByPublisher(cfg, s, p, call, id);
      case Purge(cutoff, batch) => PublishedPurge(cfg, s, cutoff, batch, id);
      case _ =>
    }
  }

  lemma MarkKeeps(b: Box, publisher: nat, now: int, outcome: Outcome, id: nat)
    requires Owned(b) && publisher in b.publishers && b.publishers[publisher].wrote.Some?
    requires id in b.rows && b.rows[id].status == Published
    ensures QueueOk(b, b.publishers[publisher])
    ensures id in AfterMark(b, publisher, now, outcome).rows &&
      AfterMark(b, publisher, now, outcome).rows[id] == b.rows[id]
  {
    assert QueueOk(b, b.publishers[publisher]);
    assert ClaimOk(b, b.publishers[publisher], 0);
  }

  lemma ClaimKeeps(b: Box, publisher: nat, limit: int, chosen: seq<nat>, outcome: Outcome, id: nat)
    requires CanClaim(b, limit, chosen) && id in b.rows && b.rows[id].status == Published
    ensures var b' := TakeBatch(b, publisher, limit, chosen, outcome); id in b'.rows && b'.rows[id] == b.rows[id]
  {
    ChosenClaimable(b, limit, chosen, id);
  }

  /** `published` is terminal over whole runs, although the mark statements carry no status guard. */
  lemma {:induction false} PublishedIsTerminal(cfg: Config, s: State, schedule: seq<Label>, id: nat)
    requires Owned(s.box) && id in s.box.rows && s.box.rows[id].status == Published
    ensures Owned(Run(cfg, s, schedule).box)
    ensures id in s.box.events && id in Run(cfg, s, schedule).box.events
    ensures id in Run(cfg, s, schedule).box.rows ==> Run(cfg, s, schedule).box.rows[id] == s.box.rows[id]
  {
    if schedule != [] {
      var n := |schedule| - 1;
      PublishedIsTerminal(cfg, s, schedule[..n], id);
      var before := Run(cfg, s, schedule[..n]);
      StepOwned(cfg, before, schedule[n]);
      EventsGrow(cfg, before, schedule[n]);
      if id in before.box.rows { PublishedStep(cfg, before, schedule[n], id); }
    }
  }

  /** The event history only grows, and a removed row never comes back: its id is not fresh any more. */
  lemma EventsGrow(cfg: Config, s: State, l: Label)
    ensures var b' := Step(cfg, s, l).box;
      (forall id :: id in s.box.events ==> id in b'.events && b'.events[id] == s.box.events[id]) &&
      (forall id :: id in s.box.events && id !in s.box.rows ==> id !in b'.rows)
  {
    if Enabled(cfg, s, l) {
      match l
      case Client(c, request) => InsertsAtMostOne(s, c, request);
      case Publish(p, call) => PublisherKeys(cfg, s, p, call);
      case _ =>
    }
  }

  lemma MarkKeys(b: Box, p: nat, now: int, outcome: Outcome)
    requires p in b.publishers && b.publishers[p].queue != [] && b.publishers[p].wrote.Some?
    ensures forall id :: id in AfterMark(b, p, now, outcome).rows <==> id in b.rows
  {
  }

  lemma PublisherKeys(cfg: Config, s: State, p: nat, call: PublisherCall)
    requires PublisherEnabled(s, p, call)
    ensures var b' := PublisherStep(cfg, s, p, call).box;
      b'.events == s.box.events && b'.created == s.box.created && forall id :: id in b'.rows <==> id in s.box.rows
  {
    if call.Mark? { MarkKeys(s.box, p, s.now, call.outcome); }
  }
}
