/** What is never finished: an outbox row left in `publishing` without an owner, and an audit row left in `started`
    without a claimant. Each is stuck forever, and nothing else is. */
module Stuck {
  import opened Common
  import opened Messages
  import opened System
  import opened OutboxProtocol
  import opened Delivery
  import RA = ReplayAudit

  // ----- outbox rows

  predicate InQueue(p: Publisher, id: nat) { exists i :: 0 <= i < |p.queue| && p.queue[i].id == id }

  /** Claimed, and in no publisher's queue. */
  predicate Stranded(b: Box, id: nat) {
    id in b.rows && b.rows[id].status == Publishing && forall p :: p in b.publishers ==> !InQueue(b.publishers[p], id)
  }

  /** A step leaves a stranded row as it is. */
  predicate StillStranded(b: Box, b': Box, id: nat)
    requires id in b.rows
  {
    Stranded(b', id) && b'.rows[id] == b.rows[id]
  }

  lemma PublisherStranded(cfg: Config, s: State, p: nat, call: PublisherCall, id: nat)
    requires PublisherEnabled(s, p, call) && Stranded(s.box, id)
    ensures StillStranded(s.box, PublisherStep(cfg, s, p, call).box, id)
  {
    var b, b' := s.box, PublisherStep(cfg, s, p, call).box;
    if call.ClaimPending? { ChosenClaimable(b, call.limit, call.chosen, id); }
    if p in b.publishers { assert !InQueue(b.publishers[p], id); }
    forall q | q in b'.publishers ensures !InQueue(b'.publishers[q], id) {
      if q in b.publishers { assert !InQueue(b.publishers[q], id); }
    }
  }

  lemma StepStranded(cfg: Config, s: State, l: Label, id: nat)
    requires Owned(s.box) && Stranded(s.box, id)
    ensures StillStranded(s.box, Step(cfg, s, l).box, id)
  {
    if Enabled(cfg, s, l) {
      match l
      case Client(c, request) => InsertsAtMostOne(s, c, request);
      case Publish(p, call) => PublisherStranded(cfg, s, p, call, id);
      case _ =>
    }
  }

  /** Over any continuation a stranded row is as it was, and stranded: no publisher claims or marks it again. */
  lemma {:induction false} StrandedForever(cfg: Config, s: State, after: seq<Label>, id: nat)
    requires Owned(s.box) && Stranded(s.box, id)
    ensures Owned(Run(cfg, s, after).box) && StillStranded(s.box, Run(cfg, s, after).box, id)
  {
    if after != [] {
      var n := |after| - 1;
      StrandedForever(cfg, s, after[..n], id);
      StepOwned(cfg, Run(cfg, s, after[..n]), after[n]);
      StepStranded(cfg, Run(cfg, s, after[..n]), after[n], id);
    }
  }

  /** The step is one of the three that lose a claim: a claim that takes effect but reports an error, a mark that does
      not take effect, or a crash of the publisher. */
  predicate LosesClaim(b: Box, l: Label, id: nat) {
    l.Publish? &&
    match l.call
    case ClaimPending(_, chosen, outcome) => id in chosen && outcome == DoneButError
    case Write(_, _, _, _, _) => false
    case Mark(marked, _, outcome) => marked == id && outcome == NotDone
    case PublisherCrash => l.publisher in b.publishers && InQueue(b.publishers[l.publisher], id)
  }

  /** An owned event is in no other queue, and once in its own. */
  lemma OwnerIsAlone(b: Box, p: nat, id: nat)
    requires Owned(b) && p in b.publishers && InQueue(b.publishers[p], id)
    ensures id in b.rows && b.rows[id].status == Publishing
    ensures forall q :: q in b.publishers && q != p ==> !InQueue(b.publishers[q], id)
    ensures b.publishers[p].queue[0].id == id ==> forall i :: 1 <= i < |b.publishers[p].queue| ==>
      b.publishers[p].queue[i].id != id
  {
    assert QueueOk(b, b.publishers[p]);
    var i :| 0 <= i < |b.publishers[p].queue| && b.publishers[p].queue[i].id == id;
    assert ClaimOk(b, b.publishers[p], i);
    forall q | q in b.publishers && q != p ensures !InQueue(b.publishers[q], id) {
      assert Disjoint(b.publishers[p], b.publishers[q]);
    }
  }

  /** Some publisher has it in its queue. */
  predicate IsOwned(b: Box, id: nat) { exists p :: p in b.publishers && InQueue(b.publishers[p], id) }

  lemma ClaimStrands(b: Box, p: nat, limit: int, chosen: seq<nat>, outcome: Outcome, id: nat)
    requires Owned(b) && p !in b.publishers && CanClaim(b, limit, chosen) && id in b.rows && !Stranded(b, id)
    ensures Stranded(TakeBatch(b, p, limit, chosen, outcome), id) <==> id in chosen && outcome == DoneButError
  {
    var b' := TakeBatch(b, p, limit, chosen, outcome);
    if id in chosen {
      ChosenClaimable(b, limit, chosen, id);
      forall q | q in b.publishers ensures !InQueue(b.publishers[q], id) {
        if InQueue(b.publishers[q], id) { OwnerIsAlone(b, q, id); }
      }
      if outcome == Done {
        var i :| 0 <= i < |chosen| && chosen[i] == id;
        assert b'.publishers[p].queue[i].id == id;
      }
    } else if IsOwned(b, id) {
      var q :| q in b.publishers && InQueue(b.publishers[q], id);
      assert b'.publishers[q] == b.publishers[q];
    }
  }

  lemma MarkStrands(b: Box, p: nat, now: int, outcome: Outcome, id: nat)
    requires Owned(b) && p in b.publishers && b.publishers[p].wrote.Some? && id in b.rows && !Stranded(b, id)
    ensures QueueOk(b, b.publishers[p])
    ensures Stranded(AfterMark(b, p, now, outcome), id) <==>
      b.publishers[p].queue[0].id == id && outcome == NotDone
  {
    var q, b' := b.publishers[p], AfterMark(b, p, now, outcome);
    assert QueueOk(b, q);
    if q.queue[0].id == id {
      OwnerIsAlone(b, p, id);
    } else if IsOwned(b, id) {
      var o :| o in b.publishers && InQueue(b.publishers[o], id);
      var i :| 0 <= i < |b.publishers[o].queue| && b.publishers[o].queue[i].id == id;
      assert if o == p then b'.publishers[p].queue[i - 1].id == id else b'.publishers[o] == b.publishers[o];
      assert o in b'.publishers && InQueue(b'.publishers[o], id);
    }
  }

  lemma CrashStrands(b: Box, p: nat, id: nat)
    requires Owned(b) && p in b.publishers && id in b.rows && !Stranded(b, id)
    ensures Stranded(b.(publishers := Without(b.publishers, p)), id) <==> InQueue(b.publishers[p], id)
  {
    var b' := b.(publishers := Without(b.publishers, p));
    if InQueue(b.publishers[p], id) {
      OwnerIsAlone(b, p, id);
    } else if IsOwned(b, id) {
      var q :| q in b.publishers && InQueue(b.publishers[q], id);
      assert b'.publishers[q] == b.publishers[q];
    }
  }

  lemma WriteStrands(b: Box, p: nat, acked: bool, id: nat)
    requires Owned(b) && p in b.publishers && b.publishers[p].wrote == None && id in b.rows && !Stranded(b, id)
    ensures QueueOk(b, b.publishers[p]) && !Stranded(AfterWrite(b, p, acked), id)
  {
    var b' := AfterWrite(b, p, acked);
    assert QueueOk(b, b.publishers[p]);
    if IsOwned(b, id) {
      var q :| q in b.publishers && InQueue(b.publishers[q], id);
      assert b'.publishers[q].queue == b.publishers[q].queue;
    }
  }

  /** A row becomes stranded by a step exactly when the step loses its claim. */
  lemma StrandsExactly(cfg: Config, s: State, l: Label, id: nat)
    requires Owned(s.box) && Enabled(cfg, s, l) && id in s.box.rows && !Stranded(s.box, id)
    ensures Stranded(Apply(cfg, s, l).box, id) <==> LosesClaim(s.box, l, id)
  {
    match l
    case Client(c, request) =>
      InsertsAtMostOne(s, c, request);
      assert IsOwned(s.box, id) ==> IsOwned(ClientStep(s, c, request).box, id);
    case Publish(p, call) =>
      match call {
        case ClaimPending(limit, chosen, outcome) => ClaimStrands(s.box, p, limit, chosen, outcome, id);
        case Write(_, _, _, _, acked) => WriteStrands(s.box, p, acked, id);
        case Mark(_, _, outcome) => MarkStrands(s.box, p, s.now, outcome, id);
        case PublisherCrash => CrashStrands(s.box, p, id);
      }
    case _ =>
  }

  // ----- whatever is not stranded can still be published

  predicate PublishedAfter(cfg: Config, s: State, after: seq<Label>, id: nat) {
    var b := Run(cfg, s, after).box; id in b.rows && b.rows[id].status == Published
  }

  /** Publisher p has the event at place i of its queue. */
  predicate HasAt(b: Box, p: nat, i: nat, id: nat) {
    p in b.publishers && i < |b.publishers[p].queue| && b.publishers[p].queue[i].id == id
  }

  ghost predicate Ready(s: State) { Owned(s.box) && |s.bus.partitions| >= 1 }

  lemma StepReady(cfg: Config, s: State, l: Label)
    requires Ready(s)
    ensures Ready(Step(cfg, s, l))
  {
    StepOwned(cfg, s, l);
    if Enabled(cfg, s, l) { StepProgress(cfg, s, l); }
  }

  lemma MarkHead(cfg: Config, s: State, p: nat) returns (l: Label)
    requires Ready(s) && p in s.box.publishers && s.box.publishers[p].wrote.Some?
    ensures QueueOk(s.box, s.box.publishers[p]) && Ready(Step(cfg, s, l))
    ensures Step(cfg, s, l).box == AfterMark(s.box, p, s.now, Done)
  {
    assert QueueOk(s.box, s.box.publishers[p]);
    l := Publish(p, Mark(s.box.publishers[p].queue[0].id, s.box.publishers[p].wrote.value, Done));
    StepReady(cfg, s, l);
  }

  lemma WriteHead(cfg: Config, s: State, p: nat) returns (l: Label)
    requires Ready(s) && p in s.box.publishers && s.box.publishers[p].wrote == None
    ensures QueueOk(s.box, s.box.publishers[p]) && Ready(Step(cfg, s, l))
    ensures Step(cfg, s, l).box == AfterWrite(s.box, p, true)
  {
    assert QueueOk(s.box, s.box.publishers[p]);
    l := Publish(p, Write(s.box.publishers[p].queue[0].id, [], 0, 1, true));
    StepReady(cfg, s, l);
  }

  /** The event can still be written: nobody has claimed it, or its owner has not written it, or not with success. */
  ghost predicate ToWrite(b: Box, id: nat) {
    Claimable(b, id) || exists p, i: nat :: HasAt(b, p, i, id) && (i > 0 || b.publishers[p].wrote != Some(true))
  }

  /** Publisher p is about to write the event. */
  predicate AboutToWrite(b: Box, p: nat, id: nat) { HasAt(b, p, 0, id) && b.publishers[p].wrote == None }

  lemma ClaimOne(cfg: Config, s: State, id: nat) returns (p: nat, l: Label)
    requires Ready(s) && Claimable(s.box, id)
    ensures Ready(Step(cfg, s, l)) && AboutToWrite(Step(cfg, s, l).box, p, id)
  {
    p := FreshId(s.box.publishers.Keys);
    l := Publish(p, ClaimPending(1, [id], Done));
    StepReady(cfg, s, l);
  }

  lemma BringWaiting(cfg: Config, s: State, id: nat) returns (q: nat, after: seq<Label>)
    requires Ready(s) && Claimable(s.box, id)
    ensures Ready(Run(cfg, s, after)) && AboutToWrite(Run(cfg, s, after).box, q, id)
  {
    var l;
    q, l := ClaimOne(cfg, s, id);
    after := [l] + [];
    RunFirst(cfg, s, l, []);
  }

  /** Its owner works through what stands before the event in the queue; a failed write is claimed again. */
  lemma {:induction false} BringQueued(cfg: Config, s: State, p: nat, i: nat, id: nat)
    returns (q: nat, after: seq<Label>)
    requires Ready(s) && HasAt(s.box, p, i, id) && (i > 0 || s.box.publishers[p].wrote != Some(true))
    ensures Ready(Run(cfg, s, after)) && AboutToWrite(Run(cfg, s, after).box, q, id)
    decreases i, if s.box.publishers[p].wrote == None then 1 else 0
  {
    if i == 0 && s.box.publishers[p].wrote == None { return p, []; }
    var l, rest;
    if s.box.publishers[p].wrote == None {
      l := WriteHead(cfg, s, p);
      q, rest := BringQueued(cfg, Step(cfg, s, l), p, i, id);
    } else {
      l := MarkHead(cfg, s, p);
      if i > 0 {
        q, rest := BringQueued(cfg, Step(cfg, s, l), p, i - 1, id);
      } else {
        assert ClaimOk(s.box, s.box.publishers[p], 0);
        q, rest := BringWaiting(cfg, Step(cfg, s, l), id);
      }
    }
    after := [l] + rest;
    RunFirst(cfg, s, l, rest);
  }

  lemma BringToWrite(cfg: Config, s: State, id: nat) returns (q: nat, after: seq<Label>)
    requires Ready(s) && ToWrite(s.box, id)
    ensures Ready(Run(cfg, s, after)) && AboutToWrite(Run(cfg, s, after).box, q, id)
  {
    if Claimable(s.box, id) {
      q, after := BringWaiting(cfg, s, id);
    } else {
      var p, i: nat :| HasAt(s.box, p, i, id) && (i > 0 || s.box.publishers[p].wrote != Some(true));
      q, after := BringQueued(cfg, s, p, i, id);
    }
  }

  lemma MarkWritten(cfg: Config, s: State, p: nat, id: nat) returns (l: Label)
    requires Ready(s) && HasAt(s.box, p, 0, id) && s.box.publishers[p].wrote == Some(true)
    ensures PublishedAfter(cfg, s, [l], id)
  {
    l := MarkHead(cfg, s, p);
    assert ClaimOk(s.box, s.box.publishers[p], 0);
    RunFirst(cfg, s, l, []);
  }

  lemma PublishNext(cfg: Config, s: State, p: nat, id: nat) returns (after: seq<Label>)
    requires Ready(s) && AboutToWrite(s.box, p, id)
    ensures PublishedAfter(cfg, s, after, id)
  {
    var write := WriteHead(cfg, s, p);
    var mark := MarkWritten(cfg, Step(cfg, s, write), p, id);
    after := [write] + [mark];
    RunFirst(cfg, s, write, [mark]);
  }

  lemma PublishUnstranded(cfg: Config, s: State, id: nat) returns (after: seq<Label>)
    requires Ready(s) && Unpublished(s.box, id) && !Stranded(s.box, id)
    ensures PublishedAfter(cfg, s, after, id)
  {
    if ToWrite(s.box, id) {
      var p, first := BringToWrite(cfg, s, id);
      var second := PublishNext(cfg, Run(cfg, s, first), p, id);
      after := first + second;
      RunAppend(cfg, s, first, second);
    } else {
      var p :| p in s.box.publishers && InQueue(s.box.publishers[p], id);
      var i :| 0 <= i < |s.box.publishers[p].queue| && s.box.publishers[p].queue[i].id == id;
      assert HasAt(s.box, p, i, id);
      var l := MarkWritten(cfg, s, p, id);
      after := [l];
    }
  }

  /** In every reachable state a row that is not published can still become published, by some continuation of the run,
      exactly when it is not stranded. */
  lemma CanPublishExactly(cfg: Config, partitions: nat, before: seq<Label>, id: nat)
    requires partitions >= 1
    requires var b := Reached(cfg, partitions, before).box; id in b.rows && b.rows[id].status != Published
    ensures var s := Reached(cfg, partitions, before);
      (exists after :: PublishedAfter(cfg, s, after, id)) <==> !Stranded(s.box, id)
  {
    var s := Reached(cfg, partitions, before);
    ReachedReady(cfg, partitions, before);
    if Stranded(s.box, id) {
      forall after ensures !PublishedAfter(cfg, s, after, id) { StrandedForever(cfg, s, after, id); }
    } else {
      var after := PublishUnstranded(cfg, s, id);
      assert PublishedAfter(cfg, s, after, id);
    }
  }

  lemma {:induction false} ReachedReady(cfg: Config, partitions: nat, schedule: seq<Label>)
    requires partitions >= 1
    ensures Ready(Reached(cfg, partitions, schedule))
  {
    if schedule != [] {
      var n := |schedule| - 1;
      ReachedReady(cfg, partitions, schedule[..n]);
      StepReady(cfg, Reached(cfg, partitions, schedule[..n]), schedule[n]);
    }
  }

  // ----- audit rows

  /** Started, and no operator is at it. */
  predicate Unclaimed(a: Audit, key: Text) {
    && key in a.rows && a.rows[key].status == Started
    && forall o :: o in a.operators ==> a.operators[o].record.eventId != key
  }

  predicate StillUnclaimed(a: Audit, a': Audit, key: Text)
    requires key in a.rows
  {
    Unclaimed(a', key) && a'.rows[key] == a.rows[key]
  }

  lemma OperatorUnclaimed(cfg: Config, s: State, o: nat, call: OperatorCall, key: Text)
    requires RA.AuditInv(s.audit) && OperatorEnabled(s, o, call) && Unclaimed(s.audit, key)
    ensures StillUnclaimed(s.audit, OperatorStep(cfg, s, o, call).audit, key)
  {
    match call
    case StartReplay(index, name, reason, id, outcome) =>
      if s.bus.deadLetters[index].eventId == key {
        RA.OnlyFailedReclaimed(s.audit, o, s.bus.deadLetters[index], cfg.topic, name, reason, id, outcome);
      }
    case FinishReplay(_, _) => assert RA.ClaimantOk(s.audit, s.audit.operators[o]);
    case _ =>
  }

  lemma StepUnclaimed(cfg: Config, s: State, l: Label, key: Text)
    requires RA.AuditInv(s.audit) && Unclaimed(s.audit, key)
    ensures StillUnclaimed(s.audit, Step(cfg, s, l).audit, key)
  {
    if Enabled(cfg, s, l) {
      match l
      case Operate(o, command) => OperatorUnclaimed(cfg, s, o, command, key);
      case Purge(_, _) =>
      case _ => RA.AuditFrame(cfg, s, l);
    }
  }

  /** Over any continuation a started row without a claimant is as it was: no operator can claim it again. */
  lemma {:induction false} UnclaimedForever(cfg: Config, s: State, after: seq<Label>, key: Text)
    requires RA.AuditInv(s.audit) && Unclaimed(s.audit, key)
    ensures RA.AuditInv(Run(cfg, s, after).audit) && StillUnclaimed(s.audit, Run(cfg, s, after).audit, key)
  {
    if after != [] {
      var n := |after| - 1;
      UnclaimedForever(cfg, s, after[..n], key);
      RA.StepAudit(cfg, Run(cfg, s, after[..n]), after[n]);
      StepUnclaimed(cfg, Run(cfg, s, after[..n]), after[n], key);
    }
  }

  predicate EndedAfter(cfg: Config, s: State, after: seq<Label>, key: Text) {
    var a := Run(cfg, s, after).audit; key in a.rows && a.rows[key].status != Started && a.rows[key].completedAt.Some?
  }

  /** The claimant writes, if it has not done so, and finishes. */
  lemma FinishClaimed(cfg: Config, s: State, o: nat) returns (after: seq<Label>)
    requires RA.AuditInv(s.audit) && |s.bus.partitions| >= 1 && o in s.audit.operators
    ensures EndedAfter(cfg, s, after, s.audit.operators[o].record.eventId)
    decreases if s.audit.operators[o].wrote == None then 1 else 0
  {
    var op := s.audit.operators[o];
    assert RA.ClaimantOk(s.audit, op);
    var l, rest;
    if op.wrote == None {
      l := Operate(o, Republish(EMPTY, 0, 1, true));
      RA.StepAudit(cfg, s, l);
      StepProgress(cfg, s, l);
      rest := FinishClaimed(cfg, Step(cfg, s, l), o);
    } else {
      l, rest := Operate(o, FinishReplay(op.wrote.value, Done)), [];
    }
    after := [l] + rest;
    RunFirst(cfg, s, l, rest);
  }

  /** In every reachable state a started replay can still end, by some continuation of the run, exactly when an operator
      holds its claim. */
  lemma CanFinishExactly(cfg: Config, partitions: nat, before: seq<Label>, key: Text)
    requires partitions >= 1
    requires var a := Reached(cfg, partitions, before).audit; key in a.rows && a.rows[key].status == Started
    ensures var s := Reached(cfg, partitions, before);
      (exists after :: EndedAfter(cfg, s, after, key)) <==> !Unclaimed(s.audit, key)
  {
    var s := Reached(cfg, partitions, before);
    ReachedReady(cfg, partitions, before);
    RA.ReachedAudit(cfg, partitions, before);
    if Unclaimed(s.audit, key) {
      forall after ensures !EndedAfter(cfg, s, after, key) { UnclaimedForever(cfg, s, after, key); }
    } else {
      var o :| o in s.audit.operators && s.audit.operators[o].record.eventId == key;
      var after := FinishClaimed(cfg, s, o);
      assert EndedAfter(cfg, s, after, key);
    }
  }
}
