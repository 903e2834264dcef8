/** `Replayer.Replay` against the world: one audit claim and, if it is granted, one republication and one finish that
    records how it ended. */
module ReplayerProgram {
  import opened Common
  import opened Messages
  import opened DeadLetter
  import opened Wire
  import opened System
  import opened ReplayAudit
  import opened World
  import opened Delivery
  import opened ConsumerProgram

  datatype ReplayError = NoError | Rejected | AlreadyClaimed | AuditFailed | WriteFailed | FinishFailed

  /** The event's audit row names the operator and the reason, and is `started`. */
  predicate Claimed(a: Audit, key: Text, audit: nat, name: string, reason: string) {
    key in a.rows && a.rows[key] == ReplayRow(audit, name, reason, Started, None)
  }

  /** The event's audit row is held by another claimant, or its replay has succeeded. */
  predicate Refused(a: Audit, key: Text) { key in a.rows && a.rows[key].status != ReplayFailed }

  method ClaimAudit(w: World, o: nat, index: nat, name: string, reason: string)
    returns (audit: nat, error: ReplayError, call: Label)
    requires w.Valid() && o !in w.st.audit.operators && index < |w.st.bus.deadLetters|
    requires Replayable(w.st.bus.deadLetters[index], w.cfg.topic, name, reason)
    modifies w
    ensures w.Valid() && Own(w.trace, OperatorActor(o)) == Own(old(w.trace), OperatorActor(o)) + [call]
    ensures |w.st.bus.partitions| == old(|w.st.bus.partitions|)
    ensures IsStart(call, o) && (error.NoError? || error.AlreadyClaimed? || error.AuditFailed?)
    ensures if error.NoError?
            then o in w.st.audit.operators &&
              w.st.audit.operators[o] == Operator(audit, old(w.st.bus.deadLetters[index]), None)
            else o !in w.st.audit.operators
    ensures error.NoError? ==> Claimed(w.st.audit, old(w.st.bus.deadLetters[index].eventId), audit, name, reason)
    ensures error.AlreadyClaimed? ==> Refused(w.st.audit, old(w.st.bus.deadLetters[index].eventId))
    ensures error.AuditFailed? <==> call.command.outcome != Done
  {
    w.Interfere(OperatorActor(o));
    var id := NewId(w.st.audit.ids);
    var outcome: Outcome := *;
    var key := w.st.bus.deadLetters[index].eventId;
    call := Operate(o, StartReplay(index, name, reason, id, outcome));
    var granted := key !in w.st.audit.rows || w.st.audit.rows[key].status == ReplayFailed;
    w.Act(OperatorActor(o), call);
    audit := 0;
    if !outcome.Acked() { error := AuditFailed; }
    else if !granted { error := AlreadyClaimed; }
    else { audit, error := w.st.audit.operators[o].audit, NoError; }
  }

  ghost predicate IsStart(call: Label, o: nat) { call.Operate? && call.operator == o && call.command.StartReplay? }

  ghost predicate IsRepublish(call: Label, o: nat) { call.Operate? && call.operator == o && call.command.Republish? }

  ghost predicate IsFinish(call: Label, o: nat, succeeded: bool) {
    call.Operate? && call.operator == o && call.command.FinishReplay? && call.command.succeeded == succeeded
  }

  method RepublishMessage(w: World, o: nat, m: Message, at: Text) returns (failed: bool, call: Label)
    requires w.Valid() && |w.st.bus.partitions| > 0 && o in w.st.audit.operators &&
      w.st.audit.operators[o].wrote == None
    requires m == ReplayMessage(w.st.audit.operators[o].record, w.cfg.topic, at, w.st.audit.operators[o].audit)
    modifies w
    ensures w.Valid() && Own(w.trace, OperatorActor(o)) == Own(old(w.trace), OperatorActor(o)) + [call]
    ensures IsRepublish(call, o) && call.command.acked == !failed && (!failed ==> OnTopic(w.st.bus, m))
    ensures o in w.st.audit.operators &&
      w.st.audit.operators[o] == old(w.st.audit.operators[o]).(wrote := Some(!failed))
  {
    w.Interfere(OperatorActor(o));
    var to := AnyNat();
    var extra := AnyNat();
    var acked: bool := *;
    if to >= |w.st.bus.partitions| { to := 0; }
    var copies := if acked then extra + 1 else extra;
    call := Operate(o, Republish(at, to, copies, acked));
    if acked { AppendedOnTopic(w.st.bus, to, m, copies); }
    w.Act(OperatorActor(o), call);
    return !acked, call;
  }

  /** The event's audit row is complete, under the claimant's id and with its result. */
  predicate Finished(a: Audit, key: Text, audit: nat, succeeded: bool) {
    key in a.rows && a.rows[key].id == audit &&
      a.rows[key].status == (if succeeded then ReplaySucceeded else ReplayFailed) && a.rows[key].completedAt.Some?
  }

  method FinishAudit(w: World, o: nat, audit: nat, succeeded: bool) returns (failed: bool, call: Label)
    requires w.Valid() && o in w.st.audit.operators
    requires w.st.audit.operators[o].audit == audit && w.st.audit.operators[o].wrote == Some(succeeded)
    modifies w
    ensures w.Valid() && Own(w.trace, OperatorActor(o)) == Own(old(w.trace), OperatorActor(o)) + [call]
    ensures IsFinish(call, o, succeeded) && call.command.outcome.Acked() == !failed && LogsGrow(old(w.st.bus), w.st.bus)
    ensures !failed ==> Finished(w.st.audit, old(w.st.audit.operators[o].record.eventId), audit, succeeded)
    ensures o !in w.st.audit.operators
  {
    w.Interfere(OperatorActor(o));
    var outcome: Outcome := *;
    FinishTouchesOneRow(w.cfg, w.partitions, w.trace, o, succeeded);
    call := Operate(o, FinishReplay(succeeded, outcome));
    w.Act(OperatorActor(o), call);
    return !outcome.Acked(), call;
  }

  /** The operator's own steps: none if the record is rejected, a refused claim, or claim, republication and finish. */
  ghost predicate ReplayProtocol(calls: seq<Label>, o: nat, error: ReplayError) {
    match error
    case Rejected => calls == []
    case AlreadyClaimed => |calls| == 1 && IsStart(calls[0], o) && calls[0].command.outcome == Done
    case AuditFailed => |calls| == 1 && IsStart(calls[0], o) && calls[0].command.outcome != Done
    case WriteFailed =>
      |calls| == 3 && IsStart(calls[0], o) && IsRepublish(calls[1], o) && !calls[1].command.acked &&
        IsFinish(calls[2], o, false)
    case FinishFailed =>
      |calls| == 3 && IsStart(calls[0], o) && IsRepublish(calls[1], o) && calls[1].command.acked &&
        IsFinish(calls[2], o, true) && !calls[2].command.outcome.Acked()
    case NoError =>
      |calls| == 3 && IsStart(calls[0], o) && IsRepublish(calls[1], o) && calls[1].command.acked &&
        IsFinish(calls[2], o, true) && calls[2].command.outcome.Acked()
  }

  /** The record's message is on the topic again, marked with the audit id, and that audit row ends as succeeded. */
  ghost predicate Replayed(s: State, record: Record, topic: string, at: Text, audit: nat) {
    (exists m :: OnTopic(s.bus, m) && Replays(m, record, topic, at, audit)) &&
    Finished(s.audit, record.eventId, audit, true)
  }

  method Replay(w: World, o: nat, index: nat, name: string, reason: string, at: Text)
    returns (error: ReplayError, calls: seq<Label>)
    requires w.Valid() && |w.st.bus.partitions| > 0 && o !in w.st.audit.operators && index < |w.st.bus.deadLetters|
    modifies w
    ensures w.Valid() && o !in w.st.audit.operators
    ensures Own(w.trace, OperatorActor(o)) == Own(old(w.trace), OperatorActor(o)) + calls
    ensures ReplayProtocol(calls, o, error)
    ensures error.NoError? ==> exists audit :: Replayed(w.st, old(w.st.bus.deadLetters[index]), w.cfg.topic, at, audit)
    ensures error.Rejected? <==> !MayReplay(old(w.st.bus.deadLetters[index]), w.cfg.topic, name, reason)
    ensures error.AlreadyClaimed? ==> Refused(w.st.audit, old(w.st.bus.deadLetters[index].eventId))
    ensures error.WriteFailed? && calls[2].command.outcome == Done ==>
      exists audit :: Finished(w.st.audit, old(w.st.bus.deadLetters[index].eventId), audit, false)
  {
    calls := [];
    var record := w.st.bus.deadLetters[index];
    if record.schemaVersion != SCHEMA_VERSION { return Rejected, calls; }
    if record.eventId == EMPTY { return Rejected, calls; }
    if record.sourceTopic != w.cfg.topic { return Rejected, calls; }
    if name == "" || reason == "" { return Rejected, calls; }
    var audit, claimError, start := ClaimAudit(w, o, index, name, reason);
    calls := [start];
    if !claimError.NoError? { return claimError, calls; }
    var m := BuildReplay(record, w.cfg.topic, at, audit);
    var writeFailed, write := RepublishMessage(w, o, m, at);
    ghost var written := w.st.bus;
    var finishFailed, finish := FinishAudit(w, o, audit, !writeFailed);
    calls := [start, write, finish];
    if !writeFailed { OnTopicStays(written, w.st.bus, m); }
    assert Replays(m, record, w.cfg.topic, at, audit);
    assert !writeFailed && !finishFailed ==> Replayed(w.st, record, w.cfg.topic, at, audit);
    error := if writeFailed then WriteFailed else if finishFailed then FinishFailed else NoError;
  }
}
