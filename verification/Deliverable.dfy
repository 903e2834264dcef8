/** Possible delivery: which payments can still reach the ledger, from every reachable state. */
module Deliverable {
  import opened Common
  import opened Messages
  import opened DeadLetter
  import opened System
  import opened History
  import opened OutboxProtocol
  import opened Delivery
  import opened Stuck
  import opened Passing
  import opened ExactlyOnce
  import Ledger
  import RA = ReplayAudit

  // ----- what holds in every state here

  /** A claimant's record is one of the dead letters. */
  ghost predicate RecordsHeld(s: State) {
    forall o :: o in s.audit.operators ==> s.audit.operators[o].record in s.bus.deadLetters
  }

  /** A completed replay has its stamp. */
  ghost predicate Stamped(a: Audit) {
    forall k :: k in a.rows && a.rows[k].status != Started ==> a.rows[k].completedAt.Some?
  }

  ghost predicate Sane(topic: string, s: State) {
    Inv(topic, s) && RA.AuditInv(s.audit) && RecordsHeld(s) && Stamped(s.audit) && |s.bus.partitions| >= 1
  }

  lemma OperatorRecordsHeld(cfg: Config, s: State, o: nat, call: OperatorCall)
    requires RecordsHeld(s) && Stamped(s.audit) && OperatorEnabled(s, o, call)
    ensures RecordsHeld(OperatorStep(cfg, s, o, call)) && Stamped(OperatorStep(cfg, s, o, call).audit)
  {
  }

  lemma StepRecordsHeld(cfg: Config, s: State, l: Label)
    requires RecordsHeld(s) && Stamped(s.audit) && Enabled(cfg, s, l)
    ensures RecordsHeld(Apply(cfg, s, l)) && Stamped(Apply(cfg, s, l).audit)
  {
    if l.Operate? {
      OperatorRecordsHeld(cfg, s, l.operator, l.command);
    } else {
      StepProgress(cfg, s, l);
      if !l.Purge? { RA.AuditFrame(cfg, s, l); }
    }
  }

  lemma StepSane(cfg: Config, s: State, l: Label)
    requires Sane(cfg.topic, s)
    ensures Sane(cfg.topic, Step(cfg, s, l))
  {
    StepFlow(cfg, s, l);
    RA.StepAudit(cfg, s, l);
    if Enabled(cfg, s, l) {
      StepRecordsHeld(cfg, s, l);
      StepProgress(cfg, s, l);
    }
  }

  /** Events and dead letters are never forgotten. */
  ghost predicate Remembers(s: State, s': State) {
    s.bus.deadLetters <= s'.bus.deadLetters && Extends(s.box.events, s'.box.events)
  }

  lemma {:induction false} RunSane(cfg: Config, s: State, schedule: seq<Label>)
    requires Sane(cfg.topic, s)
    ensures Sane(cfg.topic, Run(cfg, s, schedule)) && Remembers(s, Run(cfg, s, schedule))
  {
    if schedule != [] {
      var n := |schedule| - 1;
      var s1 := Run(cfg, s, schedule[..n]);
      RunSane(cfg, s, schedule[..n]);
      StepSane(cfg, s1, schedule[n]);
      EventsGrow(cfg, s1, schedule[n]);
      if Enabled(cfg, s1, schedule[n]) { StepProgress(cfg, s1, schedule[n]); }
    }
  }

  lemma ReachedSane(cfg: Config, partitions: nat, schedule: seq<Label>)
    requires partitions >= 1
    ensures Sane(cfg.topic, Reached(cfg, partitions, schedule))
  {
    ReachedInv(cfg, partitions, []);
    RunSane(cfg, Init(partitions), schedule);
  }

  // ----- ways to the ledger

  ghost predicate RecordedAfter(cfg: Config, s: State, after: seq<Label>, id: nat) {
    Recorded(Run(cfg, s, after).books, id)
  }

  predicate IsCreatedEvent(s: State, id: nat) { id in s.box.events && IsCreated(s.box.events[id]) }

  ghost predicate InFlight(topic: string, s: State, id: nat) {
    IsCreatedEvent(s, id) && UncommittedCopy(topic, s.bus, id, s.box.events[id])
  }

  /** The consumer passes what stands before the copy, and posts it, unless it has been posted. */
  lemma {:induction false} RecordCopy(cfg: Config, s: State, k: nat, i: nat, id: nat) returns (after: seq<Label>)
    requires Sane(cfg.topic, s) && IsCreatedEvent(s, id)
    requires CopyAt(cfg.topic, s.bus, k, i, id, s.box.events[id]) && s.bus.partitions[k].committed <= i
    ensures RecordedAfter(cfg, s, after, id)
    decreases i - s.bus.partitions[k].committed
  {
    var first := PassMessage(cfg, s, k);
    var s1 := Run(cfg, s, first);
    RunSane(cfg, s, first);
    if s.bus.partitions[k].committed == i {
      PassedIsRecorded(cfg, s, s1, k, id);
      after := first;
    } else {
      assert CopyAt(cfg.topic, s1.bus, k, i, id, s1.box.events[id]);
      var second := RecordCopy(cfg, s1, k, i, id);
      after := first + second;
      RunAppend(cfg, s, first, second);
    }
  }

  lemma PassedIsRecorded(cfg: Config, s: State, s': State, k: nat, id: nat)
    requires Sane(cfg.topic, s) && Current(s.bus, k) && CopyOfCreated(cfg.topic, s.box.events, Held(s.bus, k), id)
    requires HeldMovement(s.bus, k).Some? ==>
      PostedOnceMore(s.books, s'.books, HeldMovement(s.bus, k).value.0, s.now)
    ensures Recorded(s'.books, id)
  {
    HeldMovementOk(cfg.topic, s, k);
    if id in s.books.consumed {
      assert Recorded(s.books, id);
    } else {
      assert s'.books.postings[|s.books.postings|].event == id;
    }
  }

  lemma RecordInFlight(cfg: Config, s: State, id: nat) returns (after: seq<Label>)
    requires Sane(cfg.topic, s) && InFlight(cfg.topic, s, id)
    ensures RecordedAfter(cfg, s, after, id)
  {
    var k: nat, i: nat :|
      CopyAt(cfg.topic, s.bus, k, i, id, s.box.events[id]) && s.bus.partitions[k].committed <= i;
    after := RecordCopy(cfg, s, k, i, id);
  }

  /** The step writes one copy of the event. */
  lemma WriteNext(cfg: Config, s: State, p: nat, id: nat) returns (l: Label)
    requires ContentOk(cfg.topic, s) && |s.bus.partitions| >= 1 && IsCreatedEvent(s, id) && AboutToWrite(s.box, p, id)
    ensures InFlight(cfg.topic, Step(cfg, s, l), id)
  {
    var write := Write(id, [], 0, 1, true);
    assert PublisherEnabled(s, p, write);
    l := Publish(p, write);
    var s' := PublisherStep(cfg, s, p, write);
    assert Step(cfg, s, l) == s' && s'.box.events == s.box.events;
    JustWritten(cfg, s, p, write);
  }

  lemma SendUnwritten(cfg: Config, s: State, id: nat) returns (after: seq<Label>)
    requires Sane(cfg.topic, s) && IsCreatedEvent(s, id) && ToWrite(s.box, id)
    ensures InFlight(cfg.topic, Run(cfg, s, after), id)
  {
    var p, first := BringToWrite(cfg, s, id);
    RunSane(cfg, s, first);
    var l := WriteNext(cfg, Run(cfg, s, first), p, id);
    after := first + [l];
    RunLast(cfg, s, first, l);
  }

  // ----- replaying a dead letter

  predicate FreeKey(a: Audit, key: Text) { key !in a.rows || a.rows[key].status == ReplayFailed }

  lemma ReplayFree(cfg: Config, s: State, id: nat) returns (after: seq<Label>)
    requires Sane(cfg.topic, s) && IsCreatedEvent(s, id) && FreeKey(s.audit, Uuid(id))
    requires DeadLettered(cfg.topic, s.bus, id, s.box.events[id])
    ensures InFlight(cfg.topic, Run(cfg, s, after), id)
  {
    var j :| 0 <= j < |s.bus.deadLetters| && s.bus.deadLetters[j].eventId == Uuid(id) &&
      Carries(Source(s.bus.deadLetters[j]), cfg.topic, id, s.box.events[id]);
    assert SoundRecord(cfg.topic, s.box.events, s.bus.deadLetters[j]);
    assert PartitionOk(cfg.topic, s.box.events, s.bus.partitions[0]);
    var o, start := ClaimLetter(cfg, s, j);
    var republish := RepublishOwn(cfg, Step(cfg, s, start), o, id);
    RunTwo(cfg, s, start, republish);
    after := [start, republish];
  }

  lemma ClaimLetter(cfg: Config, s: State, j: nat) returns (o: nat, l: Label)
    requires j < |s.bus.deadLetters| && Replayable(s.bus.deadLetters[j], cfg.topic, "operator", "reason")
    requires FreeKey(s.audit, s.bus.deadLetters[j].eventId)
    ensures var s' := Step(cfg, s, l);
      && s' == s.(audit := s'.audit) && o in s'.audit.operators
      && s'.audit.operators[o].record == s.bus.deadLetters[j] && s'.audit.operators[o].wrote == None
  {
    o := FreshId(s.audit.operators.Keys);
    var audit := FreshId(s.audit.ids);
    l := Operate(o, StartReplay(j, "operator", "reason", audit, Done));
  }

  lemma RepublishOwn(cfg: Config, s: State, o: nat, id: nat) returns (l: Label)
    requires |s.bus.partitions| >= 1 && s.bus.partitions[0].committed <= |s.bus.partitions[0].log|
    requires IsCreatedEvent(s, id) && o in s.audit.operators && s.audit.operators[o].wrote == None
    requires Carries(Source(s.audit.operators[o].record), cfg.topic, id, s.box.events[id])
    ensures InFlight(cfg.topic, Step(cfg, s, l), id)
  {
    var op := s.audit.operators[o];
    l := Operate(o, Republish(EMPTY, 0, 1, true));
    ReplayReadsAlike(op.record, EMPTY, op.audit);
    AppendedInFlight(cfg.topic, s.bus, 0, ReplayMessage(op.record, cfg.topic, EMPTY, op.audit), 1, id,
      s.box.events[id]);
  }

  /** Retention removes a completed row once the clock has moved far enough. */
  lemma ForgetCompleted(cfg: Config, s: State, key: Text) returns (after: seq<Label>)
    requires Stamped(s.audit) && key in s.audit.rows && s.audit.rows[key].status != Started
    ensures FreeKey(Run(cfg, s, after).audit, key)
  {
    var cutoff := s.audit.rows[key].completedAt.value + 1;
    var elapsed := if cutoff + cfg.replayRetention <= s.now then 0 else cutoff + cfg.replayRetention - s.now;
    var tick, purge := Tick(elapsed), Purge(cutoff, PurgeReplays({key}));
    RunTwo(cfg, s, tick, purge);
    after := [tick, purge];
  }

  /** A claimed row ends, and is then removed. */
  lemma FreeClaimed(cfg: Config, s: State, o: nat) returns (after: seq<Label>)
    requires Sane(cfg.topic, s) && o in s.audit.operators
    ensures FreeKey(Run(cfg, s, after).audit, s.audit.operators[o].record.eventId)
  {
    var key := s.audit.operators[o].record.eventId;
    var first := FinishClaimed(cfg, s, o);
    RunSane(cfg, s, first);
    var second := ForgetCompleted(cfg, Run(cfg, s, first), key);
    after := first + second;
    RunAppend(cfg, s, first, second);
  }

  lemma FreeAny(cfg: Config, s: State, key: Text) returns (after: seq<Label>)
    requires Sane(cfg.topic, s) && !Unclaimed(s.audit, key)
    ensures FreeKey(Run(cfg, s, after).audit, key)
  {
    if FreeKey(s.audit, key) {
      after := [];
    } else if s.audit.rows[key].status != Started {
      after := ForgetCompleted(cfg, s, key);
    } else {
      var o :| o in s.audit.operators && s.audit.operators[o].record.eventId == key;
      after := FreeClaimed(cfg, s, o);
    }
  }

  lemma SendDeadLetter(cfg: Config, s: State, id: nat) returns (after: seq<Label>)
    requires Sane(cfg.topic, s) && IsCreatedEvent(s, id) && !Unclaimed(s.audit, Uuid(id))
    requires DeadLettered(cfg.topic, s.bus, id, s.box.events[id])
    ensures InFlight(cfg.topic, Run(cfg, s, after), id)
  {
    var first := FreeAny(cfg, s, Uuid(id));
    var s1 := Run(cfg, s, first);
    RunSane(cfg, s, first);
    DeadLetteredStable(cfg.topic, s.bus, s1.bus, id, s.box.events[id]);
    var second := ReplayFree(cfg, s1, id);
    after := first + second;
    RunAppend(cfg, s, first, second);
  }

  lemma DeadLetteredStable(topic: string, bus: Bus, bus': Bus, id: nat, e: Event)
    requires bus.deadLetters <= bus'.deadLetters && DeadLettered(topic, bus, id, e)
    ensures DeadLettered(topic, bus', id, e)
  {
  }

  // ----- within reach, and beyond it

  /** The event is in the ledger, on the topic before the consumer, still to be written, or in a dead letter whose audit
      row is not stuck. */
  ghost predicate WithinReach(topic: string, s: State, id: nat)
    requires id in s.box.events
  {
    || Recorded(s.books, id)
    || UncommittedCopy(topic, s.bus, id, s.box.events[id])
    || ToWrite(s.box, id)
    || (DeadLettered(topic, s.bus, id, s.box.events[id]) && !Unclaimed(s.audit, Uuid(id)))
  }

  lemma Deliver(cfg: Config, s: State, id: nat) returns (after: seq<Label>)
    requires Sane(cfg.topic, s) && IsCreatedEvent(s, id) && WithinReach(cfg.topic, s, id)
    ensures RecordedAfter(cfg, s, after, id)
  {
    if Recorded(s.books, id) {
      after := [];
    } else {
      var first := [];
      if UncommittedCopy(cfg.topic, s.bus, id, s.box.events[id]) {
        assert InFlight(cfg.topic, Run(cfg, s, first), id);
      } else if ToWrite(s.box, id) {
        first := SendUnwritten(cfg, s, id);
      } else {
        first := SendDeadLetter(cfg, s, id);
      }
      RunSane(cfg, s, first);
      var second := RecordInFlight(cfg, Run(cfg, s, first), id);
      after := first + second;
      RunAppend(cfg, s, first, second);
    }
  }

  ghost predicate Beyond(topic: string, s: State, id: nat) {
    Sane(topic, s) && IsCreatedEvent(s, id) && !WithinReach(topic, s, id)
  }

  lemma HeldIsUncommitted(topic: string, bus: Bus, k: nat, id: nat, e: Event)
    requires Current(bus, k) && Carries(Held(bus, k), topic, id, e)
    ensures UncommittedCopy(topic, bus, id, e)
  {
    assert CopyAt(topic, bus, k, bus.partitions[k].committed, id, e);
  }

  /** The message the consumer holds is no copy of the event. */
  lemma HeldIsOther(cfg: Config, s: State, k: nat, id: nat)
    requires Beyond(cfg.topic, s, id) && Current(s.bus, k)
    ensures !Carries(Held(s.bus, k), cfg.topic, id, s.box.events[id])
    ensures HeldMovement(s.bus, k).Some? ==> HeldMovement(s.bus, k).value.0 != id
  {
    HeldMovementOk(cfg.topic, s, k);
    if Carries(Held(s.bus, k), cfg.topic, id, s.box.events[id]) {
      HeldIsUncommitted(cfg.topic, s.bus, k, id, s.box.events[id]);
    }
  }

  lemma PostsOther(cfg: Config, s: State, l: Label, id: nat)
    requires !Recorded(s.books, id) && Enabled(cfg, s, l)
    requires l.Consume? && Current(s.bus, l.partition) && HeldMovement(s.bus, l.partition).Some? ==>
      HeldMovement(s.bus, l.partition).value.0 != id
    ensures !Recorded(Apply(cfg, s, l).books, id)
  {
    SecondPairExactly(cfg, s, l, id);
    TimesPosted(s.books.postings, id);
    TimesPosted(Apply(cfg, s, l).books.postings, id);
  }

  lemma BeyondBooks(cfg: Config, s: State, l: Label, id: nat)
    requires Beyond(cfg.topic, s, id) && Enabled(cfg, s, l)
    ensures !Recorded(Apply(cfg, s, l).books, id)
  {
    if l.Consume? && Current(s.bus, l.partition) { HeldIsOther(cfg, s, l.partition, id); }
    PostsOther(cfg, s, l, id);
  }

  lemma BeyondWrite(cfg: Config, s: State, p: nat, call: PublisherCall, id: nat)
    requires Beyond(cfg.topic, s, id) && PublisherEnabled(s, p, call) && call.Write?
    ensures !Carries(EventMessage(cfg.topic, s.box.publishers[p].queue[0], call.trace), cfg.topic, id, s.box.events[id])
  {
    var c := s.box.publishers[p].queue[0];
    assert QueueOk(s.box, s.box.publishers[p]);
    assert ClaimOk(s.box, s.box.publishers[p], 0);
    WrittenIsGenuine(cfg.topic, s.box.events, c, call.trace);
    assert c.id == id ==> HasAt(s.box, p, 0, id);
  }

  lemma BeyondReplay(cfg: Config, s: State, o: nat, at: Text, id: nat)
    requires Beyond(cfg.topic, s, id) && o in s.audit.operators
    ensures var op := s.audit.operators[o];
      !Carries(ReplayMessage(op.record, cfg.topic, at, op.audit), cfg.topic, id, s.box.events[id])
  {
    var op := s.audit.operators[o];
    assert SoundRecord(cfg.topic, s.box.events, op.record);
    ReplayReadsAlike(op.record, at, op.audit);
    if Carries(Source(op.record), cfg.topic, id, s.box.events[id]) {
      assert op.record in s.bus.deadLetters && op.record.eventId == Uuid(id);
      assert DeadLettered(cfg.topic, s.bus, id, s.box.events[id]);
    }
  }

  /** No copy is appended, and offsets do not go back. */
  ghost predicate NoNewCopy(topic: string, bus: Bus, bus': Bus, id: nat, e: Event) {
    |bus'.partitions| == |bus.partitions| &&
    forall k: nat, i: nat :: CopyAt(topic, bus', k, i, id, e) && bus'.partitions[k].committed <= i ==>
      CopyAt(topic, bus, k, i, id, e) && bus.partitions[k].committed <= i
  }

  lemma AppendOther(topic: string, bus: Bus, k: nat, m: Message, copies: nat, id: nat, e: Event)
    requires k < |bus.partitions| && !Carries(m, topic, id, e)
    ensures NoNewCopy(topic, bus, AppendTo(bus, k, m, copies), id, e)
  {
  }

  lemma BeyondPublisherCopies(cfg: Config, s: State, p: nat, call: PublisherCall, id: nat)
    requires Beyond(cfg.topic, s, id) && PublisherEnabled(s, p, call)
    ensures NoNewCopy(cfg.topic, s.bus, PublisherStep(cfg, s, p, call).bus, id, s.box.events[id])
  {
    PublisherFrame(cfg, s, p, call);
    if call.Write? {
      BeyondWrite(cfg, s, p, call, id);
      AppendOther(cfg.topic, s.bus, call.to, EventMessage(cfg.topic, s.box.publishers[p].queue[0], call.trace),
        call.copies, id, s.box.events[id]);
    }
  }

  lemma BeyondOperatorCopies(cfg: Config, s: State, o: nat, call: OperatorCall, id: nat)
    requires Beyond(cfg.topic, s, id) && OperatorEnabled(s, o, call)
    ensures NoNewCopy(cfg.topic, s.bus, OperatorStep(cfg, s, o, call).bus, id, s.box.events[id])
  {
    OperatorFrame(cfg, s, o, call);
    if call.Republish? {
      var op := s.audit.operators[o];
      BeyondReplay(cfg, s, o, call.at, id);
      AppendOther(cfg.topic, s.bus, call.to, ReplayMessage(op.record, cfg.topic, call.at, op.audit), call.copies, id,
        s.box.events[id]);
    }
  }

  lemma BeyondProduce(cfg: Config, s: State, to: nat, m: Message, id: nat)
    requires Beyond(cfg.topic, s, id) && ProduceEnabled(cfg, s, to, m)
    ensures NoNewCopy(cfg.topic, s.bus, AppendTo(s.bus, to, m, 1), id, s.box.events[id])
  {
    SoundMovement(cfg.topic, s, m);
    assert !CopyOfCreated(cfg.topic, s.box.events, m, id);
    AppendOther(cfg.topic, s.bus, to, m, 1, id, s.box.events[id]);
  }

  lemma BeyondNewCopies(cfg: Config, s: State, l: Label, id: nat)
    requires Beyond(cfg.topic, s, id) && Enabled(cfg, s, l)
    ensures NoNewCopy(cfg.topic, s.bus, Apply(cfg, s, l).bus, id, s.box.events[id])
  {
    match l
    case Client(c, request) => ClientFrame(s, c, request);
    case Publish(p, call) => BeyondPublisherCopies(cfg, s, p, call, id);
    case Consume(k, step) => ConsumerAppendsNothing(cfg, s, k, step, id, s.box.events[id]);
    case Operate(o, command) => BeyondOperatorCopies(cfg, s, o, command, id);
    case Produce(to, m) => BeyondProduce(cfg, s, to, m, id);
    case Purge(_, batch) => PurgeFrame(s, batch);
    case Tick(_) =>
  }

  lemma BeyondCopies(cfg: Config, s: State, l: Label, id: nat)
    requires Beyond(cfg.topic, s, id) && Enabled(cfg, s, l)
    ensures !UncommittedCopy(cfg.topic, Apply(cfg, s, l).bus, id, s.box.events[id])
  {
    BeyondNewCopies(cfg, s, l, id);
  }

  lemma ConsumerAppendsNothing(cfg: Config, s: State, k: nat, call: ConsumerCall, id: nat, e: Event)
    requires ConsumerEnabled(s, k, call)
    ensures NoNewCopy(cfg.topic, s.bus, ConsumerStep(cfg, s, k, call).bus, id, e)
  {
    if !call.Bury? && !call.Commit? { ConsumerLocal(cfg, s, k, call); }
  }

  /** Same queues, and the row is as it was or gone. */
  lemma NothingToWrite(b: Box, b': Box, id: nat)
    requires !ToWrite(b, id) && b'.publishers == b.publishers
    requires id in b'.rows ==> id in b.rows && b'.rows[id] == b.rows[id]
    ensures !ToWrite(b', id)
  {
    forall p, i: nat | HasAt(b', p, i, id) ensures i == 0 && b'.publishers[p].wrote == Some(true) {
      assert HasAt(b, p, i, id);
    }
  }

  lemma NothingClaimed(b: Box, p: nat, limit: int, chosen: seq<nat>, outcome: Outcome, id: nat)
    requires !ToWrite(b, id) && CanClaim(b, limit, chosen)
    ensures !ToWrite(TakeBatch(b, p, limit, chosen, outcome), id)
  {
    var b' := TakeBatch(b, p, limit, chosen, outcome);
    ChosenClaimable(b, limit, chosen, id);
    forall q, i: nat | HasAt(b', q, i, id) ensures i == 0 && b'.publishers[q].wrote == Some(true) {
      assert HasAt(b, q, i, id);
    }
  }

  lemma NothingMarked(b: Box, p: nat, now: int, outcome: Outcome, id: nat)
    requires Owned(b) && !ToWrite(b, id) && p in b.publishers && b.publishers[p].wrote.Some?
    ensures QueueOk(b, b.publishers[p]) && !ToWrite(AfterMark(b, p, now, outcome), id)
  {
    var b' := AfterMark(b, p, now, outcome);
    assert QueueOk(b, b.publishers[p]);
    assert HasAt(b, p, 0, b.publishers[p].queue[0].id);
    forall q, i: nat | HasAt(b', q, i, id) ensures i == 0 && b'.publishers[q].wrote == Some(true) {
      assert HasAt(b, q, if q == p then i + 1 else i, id);
    }
  }

  lemma BeyondPublisher(cfg: Config, s: State, p: nat, call: PublisherCall, id: nat)
    requires Owned(s.box) && !ToWrite(s.box, id) && PublisherEnabled(s, p, call)
    ensures !ToWrite(PublisherStep(cfg, s, p, call).box, id)
  {
    var b, b' := s.box, PublisherStep(cfg, s, p, call).box;
    match call
    case ClaimPending(limit, chosen, outcome) => NothingClaimed(b, p, limit, chosen, outcome, id);
    case Mark(_, _, outcome) => NothingMarked(b, p, s.now, outcome, id);
    case _ =>
      forall q, i: nat | HasAt(b', q, i, id) ensures i == 0 && b'.publishers[q].wrote == Some(true) {
        assert HasAt(b, q, i, id);
      }
  }

  lemma BeyondBox(cfg: Config, s: State, l: Label, id: nat)
    requires Owned(s.box) && id in s.box.events && !ToWrite(s.box, id) && Enabled(cfg, s, l)
    ensures !ToWrite(Apply(cfg, s, l).box, id)
  {
    match l
    case Client(c, request) =>
      InsertsAtMostOne(s, c, request);
      NothingToWrite(s.box, ClientStep(s, c, request).box, id);
    case Publish(p, call) => BeyondPublisher(cfg, s, p, call, id);
    case Purge(_, batch) =>
      PurgeFrame(s, batch);
      NothingToWrite(s.box, PurgeStep(s, batch).box, id);
    case _ =>
  }

  lemma BuriesHeld(cfg: Config, s: State, k: nat, call: ConsumerCall)
    requires ConsumerEnabled(s, k, call) && call.Bury?
    ensures var letters, letters' := s.bus.deadLetters, ConsumerStep(cfg, s, k, call).bus.deadLetters;
      forall j :: 0 <= j < |letters'| ==>
        (j < |letters| && letters'[j] == letters[j]) || Source(letters'[j]) == Held(s.bus, k)
  {
  }

  lemma BuriesOther(cfg: Config, s: State, k: nat, call: ConsumerCall, id: nat, e: Event)
    requires ConsumerEnabled(s, k, call) && call.Bury? && !Carries(Held(s.bus, k), cfg.topic, id, e)
    requires !DeadLettered(cfg.topic, s.bus, id, e)
    ensures !DeadLettered(cfg.topic, ConsumerStep(cfg, s, k, call).bus, id, e)
  {
    BuriesHeld(cfg, s, k, call);
  }

  /** Only burying adds dead letters. */
  lemma LettersKept(cfg: Config, s: State, l: Label)
    requires Enabled(cfg, s, l) && !(l.Consume? && l.step.Bury?)
    ensures Apply(cfg, s, l).bus.deadLetters == s.bus.deadLetters
  {
    match l
    case Client(c, request) => ClientFrame(s, c, request);
    case Consume(k, step) => if !step.Commit? { ConsumerLocal(cfg, s, k, step); }
    case _ =>
  }

  lemma NoNewLetter(cfg: Config, s: State, l: Label, id: nat, e: Event)
    requires Enabled(cfg, s, l) && !DeadLettered(cfg.topic, s.bus, id, e)
    requires l.Consume? && Current(s.bus, l.partition) ==> !Carries(Held(s.bus, l.partition), cfg.topic, id, e)
    ensures !DeadLettered(cfg.topic, Apply(cfg, s, l).bus, id, e)
  {
    if l.Consume? && l.step.Bury? {
      BuriesOther(cfg, s, l.partition, l.step, id, e);
    } else {
      LettersKept(cfg, s, l);
    }
  }

  lemma BeyondLetters(cfg: Config, s: State, l: Label, id: nat)
    requires Beyond(cfg.topic, s, id) && Enabled(cfg, s, l)
    ensures var s' := Apply(cfg, s, l);
      DeadLettered(cfg.topic, s'.bus, id, s.box.events[id]) ==> Unclaimed(s'.audit, Uuid(id))
  {
    if DeadLettered(cfg.topic, s.bus, id, s.box.events[id]) {
      StepUnclaimed(cfg, s, l, Uuid(id));
    } else {
      if l.Consume? && Current(s.bus, l.partition) { HeldIsOther(cfg, s, l.partition, id); }
      NoNewLetter(cfg, s, l, id, s.box.events[id]);
    }
  }

  /** What is beyond reach stays there. */
  lemma {:induction false} BeyondForever(cfg: Config, s: State, after: seq<Label>, id: nat)
    requires Beyond(cfg.topic, s, id)
    ensures Beyond(cfg.topic, Run(cfg, s, after), id)
  {
    if after != [] {
      var n := |after| - 1;
      BeyondForever(cfg, s, after[..n], id);
      StepBeyond(cfg, Run(cfg, s, after[..n]), after[n], id);
    }
  }

  lemma StepBeyond(cfg: Config, s: State, l: Label, id: nat)
    requires Beyond(cfg.topic, s, id)
    ensures Beyond(cfg.topic, Step(cfg, s, l), id)
  {
    StepSane(cfg, s, l);
    EventsGrow(cfg, s, l);
    if Enabled(cfg, s, l) {
      BeyondBooks(cfg, s, l, id);
      BeyondCopies(cfg, s, l, id);
      BeyondBox(cfg, s, l, id);
      BeyondLetters(cfg, s, l, id);
    }
  }

  // ----- in terms of what an observer sees

  /** The movement of a payment in the ledger means a posting of its event. */
  lemma LedgerIsRecorded(cfg: Config, s: State, payment: nat, p: Payment)
    requires ContentOk(cfg.topic, s) && payment in s.api.payments && InLedger(s.books.entries, payment, p)
    ensures payment in s.box.created && Recorded(s.books, s.box.created[payment])
  {
    var k: nat :| MovementAt(s.books.entries, k, payment, p);
    PostingsOfPayment(cfg, s, payment);
    EntryOfPosting(s.books.postings, k);
    assert s.books.entries[k].referenceId == Uuid(payment);
  }

  /** A payment keeps its event, its amount and its currency. */
  lemma SamePayment(cfg: Config, s: State, s': State, payment: nat)
    requires ContentOk(cfg.topic, s) && ContentOk(cfg.topic, s') && Extends(s.box.events, s'.box.events)
    requires payment in s.api.payments
    ensures payment in s.box.created && payment in s'.box.created && s'.box.created[payment] == s.box.created[payment]
    ensures payment in s'.api.payments && s'.api.payments[payment].amount == s.api.payments[payment].amount &&
      s'.api.payments[payment].currency == s.api.payments[payment].currency
  {
    assert CreatedEventOf(s.box, payment, s.api.payments[payment]);
    var id := s.box.created[payment];
    assert EventOk(s'.api.payments, s'.box.created, id, s'.box.events[id]);
  }

  lemma SameMovement(entries: seq<Ledger.Entry>, payment: nat, p: Payment, p': Payment)
    requires p.amount == p'.amount && p.currency == p'.currency && InLedger(entries, payment, p)
    ensures InLedger(entries, payment, p')
  {
    var k: nat :| MovementAt(entries, k, payment, p);
    assert MovementAt(entries, k, payment, p');
  }

  /** Some continuation of the run brings the payment's debit and credit into the ledger. */
  ghost predicate InLedgerAfter(cfg: Config, s: State, after: seq<Label>, payment: nat, p: Payment) {
    InLedger(Run(cfg, s, after).books.entries, payment, p)
  }

  lemma LedgerAfterExactly(cfg: Config, s: State, after: seq<Label>, payment: nat)
    requires Sane(cfg.topic, s) && payment in s.api.payments
    ensures payment in s.box.created
    ensures InLedgerAfter(cfg, s, after, payment, s.api.payments[payment]) <==>
      RecordedAfter(cfg, s, after, s.box.created[payment])
  {
    var s', p := Run(cfg, s, after), s.api.payments[payment];
    RunSane(cfg, s, after);
    SamePayment(cfg, s, s', payment);
    RecordSeen(cfg, s', payment);
    if Recorded(s'.books, s'.box.created[payment]) {
      SameMovement(s'.books.entries, payment, s'.api.payments[payment], p);
    }
    if InLedger(s'.books.entries, payment, p) { LedgerIsRecorded(cfg, s', payment, p); }
  }

  lemma BeyondTheLedger(cfg: Config, s: State, payment: nat)
    requires payment in s.api.payments && payment in s.box.created && Beyond(cfg.topic, s, s.box.created[payment])
    ensures forall after :: !InLedgerAfter(cfg, s, after, payment, s.api.payments[payment])
  {
    forall after ensures !InLedgerAfter(cfg, s, after, payment, s.api.payments[payment]) {
      BeyondForever(cfg, s, after, s.box.created[payment]);
      LedgerAfterExactly(cfg, s, after, payment);
    }
  }

  lemma CreatedEventIs(cfg: Config, s: State, payment: nat)
    requires ContentOk(cfg.topic, s) && payment in s.api.payments
    ensures payment in s.box.created && IsCreatedEvent(s, s.box.created[payment])
    ensures s.box.events[s.box.created[payment]] == NewPaymentCreated(payment, s.api.payments[payment])
  {
    assert CreatedEventOf(s.box, payment, s.api.payments[payment]);
  }

  /** Possible delivery: in every reachable state a payment can still reach the ledger, by some continuation of the run,
      exactly when it is there, or a copy of its event is before the consumer, or its event can still be written, or a
      dead letter has it whose audit row is not started without a claimant. */
  lemma CanReachLedgerExactly(cfg: Config, partitions: nat, before: seq<Label>, payment: nat)
    requires partitions >= 1 && payment in Reached(cfg, partitions, before).api.payments
    ensures payment in Reached(cfg, partitions, before).box.created
    ensures var s := Reached(cfg, partitions, before);
      var id, p := s.box.created[payment], s.api.payments[payment]; var e := NewPaymentCreated(payment, p);
      (exists after :: InLedgerAfter(cfg, s, after, payment, p)) <==>
        || InLedger(s.books.entries, payment, p)
        || UncommittedCopy(cfg.topic, s.bus, id, e)
        || ToWrite(s.box, id)
        || (DeadLettered(cfg.topic, s.bus, id, e) && !Unclaimed(s.audit, Uuid(id)))
  {
    var s := Reached(cfg, partitions, before);
    ReachedSane(cfg, partitions, before);
    CreatedEventIs(cfg, s, payment);
    LedgerAfterExactly(cfg, s, [], payment);
    var id, p := s.box.created[payment], s.api.payments[payment];
    if WithinReach(cfg.topic, s, id) {
      var after := Deliver(cfg, s, id);
      LedgerAfterExactly(cfg, s, after, payment);
      assert InLedgerAfter(cfg, s, after, payment, p);
    } else {
      BeyondTheLedger(cfg, s, payment);
    }
  }

  /** The owner of a row that is neither stranded nor still to be written has written it. */
  lemma WrittenHead(cfg: Config, s: State, id: nat)
    requires Inv(cfg.topic, s) && IsCreatedEvent(s, id)
    requires Unpublished(s.box, id) && !Stranded(s.box, id) && !ToWrite(s.box, id)
    ensures Delivered(cfg.topic, s.bus, s.books, id, s.box.events[id])
  {
    var p :| p in s.box.publishers && InQueue(s.box.publishers[p], id);
    var i :| 0 <= i < |s.box.publishers[p].queue| && s.box.publishers[p].queue[i].id == id;
    assert HasAt(s.box, p, i, id);
    assert WroteOk(cfg.topic, s.box.events, s.bus, s.books, s.box.publishers[p]);
  }

  lemma BeyondIsStuck(cfg: Config, s: State, id: nat)
    requires Beyond(cfg.topic, s, id)
    ensures Stranded(s.box, id) ||
      (DeadLettered(cfg.topic, s.bus, id, s.box.events[id]) && Unclaimed(s.audit, Uuid(id)))
  {
    assert NotLost(cfg.topic, s, id);
    if Unpublished(s.box, id) && !Stranded(s.box, id) { WrittenHead(cfg, s, id); }
  }

  /** So every payment can still reach the ledger, unless its outbox row is stranded, or its event is in a dead letter
      whose audit row is started without a claimant. */
  lemma OnlyStuckRowsStop(cfg: Config, partitions: nat, before: seq<Label>, payment: nat)
    requires partitions >= 1 && payment in Reached(cfg, partitions, before).api.payments
    ensures payment in Reached(cfg, partitions, before).box.created
    ensures var s := Reached(cfg, partitions, before);
      var id, p := s.box.created[payment], s.api.payments[payment]; var e := NewPaymentCreated(payment, p);
      || (exists after :: InLedgerAfter(cfg, s, after, payment, p))
      || Stranded(s.box, id)
      || (DeadLettered(cfg.topic, s.bus, id, e) && Unclaimed(s.audit, Uuid(id)))
  {
    var s := Reached(cfg, partitions, before);
    ReachedSane(cfg, partitions, before);
    CreatedEventIs(cfg, s, payment);
    var id := s.box.created[payment];
    if WithinReach(cfg.topic, s, id) {
      var after := Deliver(cfg, s, id);
      LedgerAfterExactly(cfg, s, after, payment);
      assert InLedgerAfter(cfg, s, after, payment, s.api.payments[payment]);
    } else {
      BeyondIsStuck(cfg, s, id);
    }
  }
}
