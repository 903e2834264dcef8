/** The replay audit: at most one live claimant per event, whose row stays `started` until it finishes,
    and at most one acknowledged republication per event unless retention removes the audit row. */
module ReplayAudit {
  import opened Common
  import opened Messages
  import opened DeadLetter
  import opened System

  // ----- invariant

  /** Audit ids identify rows, and were all generated here. */
  ghost predicate RowsOk(a: Audit) {
    && (forall k :: k in a.rows ==> a.rows[k].id in a.ids)
    && (forall j, k :: j in a.rows && k in a.rows && j != k ==> a.rows[j].id != a.rows[k].id)
  }

  /** A live claimant's row exists under its audit id, with status `started`. */
  ghost predicate ClaimantOk(a: Audit, o: Operator) {
    var key := o.record.eventId;
    key in a.rows && a.rows[key].id == o.audit && a.rows[key].status == Started
  }

  ghost predicate Exclusive(a: Audit) {
    && RowsOk(a)
    && (forall o :: o in a.operators ==> ClaimantOk(a, a.operators[o]))
    && (forall o, q :: o in a.operators && q in a.operators && o != q ==>
          a.operators[o].record.eventId != a.operators[q].record.eventId)
  }

  /** No live claimant of the event can still write, or report a failed write. */
  ghost predicate Closed(a: Audit, key: Text) {
    forall o :: o in a.operators && a.operators[o].record.eventId == key ==> a.operators[o].wrote == Some(true)
  }

  /** Without retention an event is acknowledged at most once; afterwards it cannot be claimed again. */
  ghost predicate AckOk(a: Audit, key: Text) {
    && Count(a.acks, key) <= 1
    && (Count(a.acks, key) == 1 ==> key in a.rows && a.rows[key].status != ReplayFailed && Closed(a, key))
  }

  ghost predicate AuditInv(a: Audit) {
    Exclusive(a) && forall key :: key !in a.purged ==> AckOk(a, key)
  }

  // ----- each operator step

  lemma ClaimExclusive(a: Audit, o: nat, record: Record, topic: string, name: string, reason: string, id: nat,
        outcome: Outcome)
    requires Exclusive(a) && o !in a.operators && id !in a.ids
    ensures Exclusive(BeginReplay(a, o, record, topic, name, reason, id, outcome))
  {
    var (claimed, audit) := ClaimReplay(a, record.eventId, name, reason, id);
    RowsAfterClaim(a, record.eventId, name, reason, id);
    var a' := BeginReplay(a, o, record, topic, name, reason, id, outcome);
    if a' != a {
      forall q | q in a'.operators ensures ClaimantOk(a', a'.operators[q]) {
        if q != o { assert ClaimantOk(a, a.operators[q]); }
      }
      forall q | q in a.operators ensures a.operators[q].record.eventId != record.eventId || audit == None {
        assert ClaimantOk(a, a.operators[q]);
      }
    }
  }

  lemma RowsAfterClaim(a: Audit, key: Text, name: string, reason: string, id: nat)
    requires RowsOk(a) && id !in a.ids
    ensures RowsOk(ClaimReplay(a, key, name, reason, id).0)
  {
  }

  lemma ClaimAcks(a: Audit, o: nat, record: Record, topic: string, name: string, reason: string, id: nat,
        outcome: Outcome, key: Text)
    requires o !in a.operators && AckOk(a, key)
    ensures AckOk(BeginReplay(a, o, record, topic, name, reason, id, outcome), key)
  {
  }

  lemma WriteExclusive(a: Audit, o: nat, acked: bool)
    requires Exclusive(a) && o in a.operators
    ensures Exclusive(AfterRepublish(a, o, acked))
  {
  }

  lemma WriteAcks(a: Audit, o: nat, acked: bool, key: Text)
    requires Exclusive(a) && o in a.operators && a.operators[o].wrote == None && AckOk(a, key)
    ensures AckOk(AfterRepublish(a, o, acked), key)
  {
  }

  lemma FinishExclusive(a: Audit, o: nat, now: int, outcome: Outcome)
    requires Exclusive(a) && o in a.operators && a.operators[o].wrote.Some?
    ensures Exclusive(EndReplay(a, o, now, outcome))
  {
  }

  lemma FinishAcks(a: Audit, o: nat, now: int, outcome: Outcome, key: Text)
    requires Exclusive(a) && o in a.operators && a.operators[o].wrote.Some? && AckOk(a, key)
    ensures AckOk(EndReplay(a, o, now, outcome), key)
  {
  }

  lemma ForgetExclusive(a: Audit, o: nat)
    requires Exclusive(a)
    ensures Exclusive(a.(operators := Without(a.operators, o)))
  {
    var a' := a.(operators := Without(a.operators, o));
    forall q | q in a'.operators ensures ClaimantOk(a', a'.operators[q]) {
      assert ClaimantOk(a, a.operators[q]);
    }
  }

  lemma OperatorAudit(cfg: Config, s: State, o: nat, call: OperatorCall)
    requires AuditInv(s.audit) && OperatorEnabled(s, o, call)
    ensures AuditInv(OperatorStep(cfg, s, o, call).audit)
  {
    var a, a' := s.audit, OperatorStep(cfg, s, o, call).audit;
    match call
    case StartReplay(index, name, reason, id, outcome) =>
      ClaimExclusive(a, o, s.bus.deadLetters[index], cfg.topic, name, reason, id, outcome);
      forall key | key !in a'.purged ensures AckOk(a', key) {
        ClaimAcks(a, o, s.bus.deadLetters[index], cfg.topic, name, reason, id, outcome, key);
      }
    case Republish(_, _, _, acked) =>
      WriteExclusive(a, o, acked);
      forall key | key !in a'.purged ensures AckOk(a', key) { WriteAcks(a, o, acked, key); }
    case FinishReplay(_, outcome) =>
      FinishExclusive(a, o, s.now, outcome);
      forall key | key !in a'.purged ensures AckOk(a', key) { FinishAcks(a, o, s.now, outcome, key); }
    case OperatorCrash =>
      ForgetExclusive(a, o);
  }

  /** Retention removes completed rows only, so never the row of a live claimant. */
  lemma PurgeAudit(cfg: Config, s: State, cutoff: int, batch: PurgeCall)
    requires AuditInv(s.audit) && PurgeEnabled(cfg, s, cutoff, batch)
    ensures AuditInv(PurgeStep(s, batch).audit)
  {
    if batch.PurgeReplays? {
      var a' := PurgeStep(s, batch).audit;
      forall o | o in a'.operators ensures ClaimantOk(a', a'.operators[o]) {
        assert ClaimantOk(s.audit, s.audit.operators[o]);
        var key := a'.operators[o].record.eventId;
        assert key in batch.keys ==> ReplayEligible(s.audit.rows, key, cutoff);
      }
      forall key | key !in a'.purged ensures AckOk(a', key) {
        assert AckOk(s.audit, key);
      }
    }
  }

  lemma AuditFrame(cfg: Config, s: State, l: Label)
    requires Enabled(cfg, s, l) && !l.Operate? && !l.Purge?
    ensures Apply(cfg, s, l).audit == s.audit
  {
  }

  lemma StepAudit(cfg: Config, s: State, l: Label)
    requires AuditInv(s.audit)
    ensures AuditInv(Step(cfg, s, l).audit)
  {
    if Enabled(cfg, s, l) {
      match l
      case Operate(o, command) => OperatorAudit(cfg, s, o, command);
      case Purge(cutoff, batch) => PurgeAudit(cfg, s, cutoff, batch);
      case _ => AuditFrame(cfg, s, l);
    }
  }

  lemma {:induction false} ReachedAudit(cfg: Config, partitions: nat, schedule: seq<Label>)
    ensures AuditInv(Reached(cfg, partitions, schedule).audit)
  {
    if schedule != [] {
      var n := |schedule| - 1;
      ReachedAudit(cfg, partitions, schedule[..n]);
      StepAudit(cfg, Reached(cfg, partitions, schedule[..n]), schedule[n]);
    }
  }

  // ----- theorems

  /** With any number of concurrent operators and crashes, an event has at most one live claimant, and that claimant's
      audit row is present under its id, with status `started`. */
  lemma OneClaimant(cfg: Config, partitions: nat, schedule: seq<Label>, o: nat, q: nat)
    requires var a := Reached(cfg, partitions, schedule).audit;
      o in a.operators && q in a.operators && a.operators[o].record.eventId == a.operators[q].record.eventId
    ensures o == q
    ensures var a := Reached(cfg, partitions, schedule).audit; var key := a.operators[o].record.eventId;
      key in a.rows && a.rows[key].id == a.operators[o].audit && a.rows[key].status == Started
  {
    ReachedAudit(cfg, partitions, schedule);
    var a := Reached(cfg, partitions, schedule).audit;
    assert ClaimantOk(a, a.operators[o]);
  }

  /** `FinishReplay` updates exactly one row, the claimant's own: its audit is never reported missing. */
  lemma FinishTouchesOneRow(cfg: Config, partitions: nat, schedule: seq<Label>, o: nat, succeeded: bool)
    requires o in Reached(cfg, partitions, schedule).audit.operators
    ensures var s := Reached(cfg, partitions, schedule); var op := s.audit.operators[o]; var key := op.record.eventId;
      key in s.audit.rows && s.audit.rows[key].id == op.audit &&
      FinishRows(s.audit.rows, op.audit, succeeded, s.now) ==
        s.audit.rows[key := s.audit.rows[key].(
          status := if succeeded then ReplaySucceeded else ReplayFailed, completedAt := Some(s.now))]
  {
    ReachedAudit(cfg, partitions, schedule);
    var a := Reached(cfg, partitions, schedule).audit;
    assert ClaimantOk(a, a.operators[o]);
  }

  /** Unless retention removed its audit row, an event has at most one acknowledged republication over the whole run. */
  lemma OneAcknowledgedReplay(cfg: Config, partitions: nat, schedule: seq<Label>, key: Text)
    ensures var a := Reached(cfg, partitions, schedule).audit; key !in a.purged ==> Count(a.acks, key) <= 1
  {
    ReachedAudit(cfg, partitions, schedule);
    var a := Reached(cfg, partitions, schedule).audit;
    assert key !in a.purged ==> AckOk(a, key);
  }

  /** An event keeps its audit id for as long as its row exists: a failed replay is claimed again under the same id. */
  lemma AuditIdStable(cfg: Config, s: State, l: Label, key: Text)
    requires key in s.audit.rows && key in Step(cfg, s, l).audit.rows
    ensures Step(cfg, s, l).audit.rows[key].id == s.audit.rows[key].id
  {
    if Enabled(cfg, s, l) && !l.Operate? && !l.Purge? { AuditFrame(cfg, s, l); }
  }

  /** A row that is started or succeeded is never claimed: another operator changes nothing. */
  lemma OnlyFailedReclaimed(a: Audit, o: nat, record: Record, topic: string, name: string, reason: string, id: nat,
        outcome: Outcome)
    requires record.eventId in a.rows && a.rows[record.eventId].status != ReplayFailed
    ensures BeginReplay(a, o, record, topic, name, reason, id, outcome) == a
  {
  }

  /** The row is there and as it was, or retention has removed it. */
  predicate KeptOrPurged(rows: map<Text, ReplayRow>, a': Audit, key: Text)
    requires key in rows
  {
    key in a'.purged || (key in a'.rows && a'.rows[key] == rows[key])
  }

  lemma OperatorKeepsSucceeded(cfg: Config, s: State, o: nat, call: OperatorCall, key: Text)
    requires AuditInv(s.audit) && OperatorEnabled(s, o, call)
    requires key in s.audit.rows && s.audit.rows[key].status == ReplaySucceeded
    ensures KeptOrPurged(s.audit.rows, OperatorStep(cfg, s, o, call).audit, key)
  {
    match call
    case StartReplay(index, name, reason, id, outcome) =>
      var record := s.bus.deadLetters[index];
      if record.eventId == key {
        OnlyFailedReclaimed(s.audit, o, record, cfg.topic, name, reason, id, outcome);
      }
    case FinishReplay(_, _) => assert ClaimantOk(s.audit, s.audit.operators[o]);
    case _ =>
  }

  lemma StepKeepsSucceeded(cfg: Config, s: State, l: Label, key: Text)
    requires AuditInv(s.audit) && key in s.audit.rows && s.audit.rows[key].status == ReplaySucceeded
    ensures KeptOrPurged(s.audit.rows, Step(cfg, s, l).audit, key)
    ensures s.audit.purged <= Step(cfg, s, l).audit.purged
  {
    PurgedGrows(cfg, s, l);
    if Enabled(cfg, s, l) {
      match l
      case Operate(o, command) => OperatorKeepsSucceeded(cfg, s, o, command, key);
      case Purge(_, _) =>
      case _ => AuditFrame(cfg, s, l);
    }
  }

  lemma PurgedGrows(cfg: Config, s: State, l: Label)
    ensures s.audit.purged <= Step(cfg, s, l).audit.purged
  {
    if Enabled(cfg, s, l) && !l.Operate? && !l.Purge? { AuditFrame(cfg, s, l); }
  }

  /** Over whole runs a succeeded replay stays as it is, and is never claimed again, until retention removes its row. */
  lemma {:induction false} SucceededIsFinal(cfg: Config, partitions: nat, before: seq<Label>, after: seq<Label>,
        key: Text)
    requires var a := Reached(cfg, partitions, before).audit; key in a.rows && a.rows[key].status == ReplaySucceeded
    ensures var rows := Reached(cfg, partitions, before).audit.rows;
      KeptOrPurged(rows, Reached(cfg, partitions, before + after).audit, key)
  {
    if after == [] {
      assert before + after == before;
    } else {
      var n := |after| - 1;
      SucceededIsFinal(cfg, partitions, before, after[..n], key);
      SucceededNext(cfg, partitions, before, before + after[..n], after[n], key);
      assert before + after == before + after[..n] + [after[n]];
    }
  }

  lemma SucceededNext(cfg: Config, partitions: nat, before: seq<Label>, schedule: seq<Label>, l: Label, key: Text)
    requires var a := Reached(cfg, partitions, before).audit; key in a.rows && a.rows[key].status == ReplaySucceeded
    requires KeptOrPurged(Reached(cfg, partitions, before).audit.rows, Reached(cfg, partitions, schedule).audit, key)
    ensures var rows := Reached(cfg, partitions, before).audit.rows;
      KeptOrPurged(rows, Reached(cfg, partitions, schedule + [l]).audit, key)
  {
    assert (schedule + [l])[..|schedule|] == schedule;
    var s := Reached(cfg, partitions, schedule);
    ReachedAudit(cfg, partitions, schedule);
    PurgedGrows(cfg, s, l);
    if key !in s.audit.purged { StepKeepsSucceeded(cfg, s, l, key); }
  }
}
