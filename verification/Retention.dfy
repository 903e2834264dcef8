/** The retention command's batched delete loop, `RunRule`, against the world. */
module Retention {
  import opened Common
  import opened Messages
  import opened System
  import opened OutboxProtocol
  import opened Delivery
  import ReplayAudit
  import opened World

  datatype Rule = PublishedOutboxEvents | ConsumedLedgerEvents | CompletedReplays

  function RetentionOf(cfg: Config, rule: Rule): (retention: int) {
    match rule
    case PublishedOutboxEvents => cfg.outboxRetention
    case ConsumedLedgerEvents => cfg.consumedRetention
    case CompletedReplays => cfg.replayRetention
  }

  function OutboxRows(s: State, cutoff: int): (ids: set<nat>)
  {
    set id | id in s.box.rows && OutboxEligible(s.box.rows, id, cutoff)
  }

  function ConsumedRows(s: State, cutoff: int): (ids: set<nat>)
  {
    set id | id in s.books.consumed && ConsumedEligible(s.books.consumed, id, cutoff)
  }

  function ReplayKeys(s: State, cutoff: int): (keys: set<Text>)
  {
    set k | k in s.audit.rows && ReplayEligible(s.audit.rows, k, cutoff)
  }

  /** The count query of a rule: how many rows it may remove. */
  function Eligible(s: State, rule: Rule, cutoff: int): (n: nat) {
    match rule
    case PublishedOutboxEvents => |OutboxRows(s, cutoff)|
    case ConsumedLedgerEvents => |ConsumedRows(s, cutoff)|
    case CompletedReplays => |ReplayKeys(s, cutoff)|
  }

  // ----- the rows a rule is for, in terms of the tables

  /** Outbox rows published before the cutoff. */
  ghost function OldOutbox(s: State, cutoff: int): (ids: set<nat>) {
    set id | id in s.box.rows && s.box.rows[id].status == Published && s.box.rows[id].publishedAt.Some? &&
      s.box.rows[id].publishedAt.value < cutoff
  }

  /** Dedup rows of events consumed before the cutoff. */
  ghost function OldConsumed(s: State, cutoff: int): (ids: set<nat>) {
    set id | id in s.books.consumed && s.books.consumed[id] < cutoff
  }

  /** Audit rows, of succeeded and of failed replays, completed before the cutoff. */
  ghost function OldReplays(s: State, cutoff: int): (keys: set<Text>) {
    set k | k in s.audit.rows && s.audit.rows[k].status != Started && s.audit.rows[k].completedAt.Some? &&
      s.audit.rows[k].completedAt.value < cutoff
  }

  /** How many rows of the rule's table are older than its retention at `now`. */
  ghost function Old(cfg: Config, s: State, rule: Rule, now: int): (n: nat) {
    match rule
    case PublishedOutboxEvents => |OldOutbox(s, now - cfg.outboxRetention)|
    case ConsumedLedgerEvents => |OldConsumed(s, now - cfg.consumedRetention)|
    case CompletedReplays => |OldReplays(s, now - cfg.replayRetention)|
  }

  lemma EligibleIsOld(cfg: Config, s: State, rule: Rule, now: int)
    ensures Eligible(s, rule, now - RetentionOf(cfg, rule)) == Old(cfg, s, rule, now)
  {
    var cutoff := now - RetentionOf(cfg, rule);
    match rule
    case PublishedOutboxEvents => assert OutboxRows(s, cutoff) == OldOutbox(s, cutoff);
    case ConsumedLedgerEvents => assert ConsumedRows(s, cutoff) == OldConsumed(s, cutoff);
    case CompletedReplays => assert ReplayKeys(s, cutoff) == OldReplays(s, cutoff);
  }

  lemma {:induction false} SubsetSize<T>(a: set<T>, b: set<T>)
    requires a <= b
    ensures |a| <= |b|
    decreases |a|
  {
    if a != {} {
      var x :| x in a;
      SubsetSize(a - {x}, b - {x});
    }
  }

  /** Interference can only shrink what a past cutoff may remove. */
  lemma EligibleShrinks(s: State, s': State, rule: Rule, cutoff: int)
    requires Undisturbed(RetentionActor, s, s') && cutoff <= s.now
    ensures Eligible(s', rule, cutoff) <= Eligible(s, rule, cutoff)
  {
    assert FewerEligible(s, s', cutoff);
    match rule
    case PublishedOutboxEvents => SubsetSize(OutboxRows(s', cutoff), OutboxRows(s, cutoff));
    case ConsumedLedgerEvents => SubsetSize(ConsumedRows(s', cutoff), ConsumedRows(s, cutoff));
    case CompletedReplays => SubsetSize(ReplayKeys(s', cutoff), ReplayKeys(s, cutoff));
  }

  /** LIMIT and SKIP LOCKED: at most n of the candidates; exactly min(n, all) when nothing is locked. */
  method PickSome<T(==)>(candidates: set<T>, n: nat, locked: nat) returns (chosen: set<T>)
    ensures chosen <= candidates && |chosen| <= n
    ensures locked == 0 ==> |chosen| == Min(n, |candidates|)
  {
    chosen := {};
    var rest := candidates;
    while rest != {} && |chosen| < n && |rest| > locked
      invariant chosen + rest == candidates && chosen !! rest && |chosen| <= n
      invariant |chosen| + |rest| == |candidates|
      decreases |rest|
    {
      var x :| x in rest;
      rest := rest - {x};
      chosen := chosen + {x};
    }
  }

  lemma DifferenceSize<T>(all: set<T>, chosen: set<T>)
    requires chosen <= all
    ensures |all - chosen| + |chosen| == |all|
  {
  }

  /** A batch of the rule's own table, within the batch size. */
  predicate BatchOf(rule: Rule, batch: PurgeCall, batchSize: nat) {
    match batch
    case PurgeOutbox(rows) => rule == PublishedOutboxEvents && |rows| <= batchSize
    case PurgeConsumed(rows) => rule == ConsumedLedgerEvents && |rows| <= batchSize
    case PurgeReplays(keys) => rule == CompletedReplays && |keys| <= batchSize
  }

  /** Delete statements of one rule at one cutoff, and nothing else. */
  predicate OnlyBatches(steps: seq<Label>, rule: Rule, cutoff: int, batchSize: nat) {
    forall i :: 0 <= i < |steps| ==> IsBatch(steps[i], rule, cutoff, batchSize)
  }

  predicate IsBatch(l: Label, rule: Rule, cutoff: int, batchSize: nat) {
    l.Purge? && l.cutoff == cutoff && BatchOf(rule, l.batch, batchSize)
  }

  /** The batch a delete statement of the rule removes: candidates that nobody else has locked. */
  method ChooseBatch(cfg: Config, s: State, rule: Rule, cutoff: int, batchSize: nat, locked: nat)
    returns (batch: PurgeCall, size: nat)
    requires cutoff <= s.now - RetentionOf(cfg, rule)
    ensures PurgeEnabled(cfg, s, cutoff, batch) && BatchOf(rule, batch, batchSize) &&
      SizeOf(Purge(cutoff, batch)) == size
    ensures Eligible(PurgeStep(s, batch), rule, cutoff) + size == Eligible(s, rule, cutoff)
    ensures size <= batchSize && (locked == 0 ==> size == Min(batchSize, Eligible(s, rule, cutoff)))
  {
    match rule
    case PublishedOutboxEvents =>
      var chosen := PickSome(OutboxRows(s, cutoff), batchSize, locked);
      DifferenceSize(OutboxRows(s, cutoff), chosen);
      assert OutboxRows(PurgeStep(s, PurgeOutbox(chosen)), cutoff) == OutboxRows(s, cutoff) - chosen;
      return PurgeOutbox(chosen), |chosen|;
    case ConsumedLedgerEvents =>
      var chosen := PickSome(ConsumedRows(s, cutoff), batchSize, locked);
      DifferenceSize(ConsumedRows(s, cutoff), chosen);
      assert ConsumedRows(PurgeStep(s, PurgeConsumed(chosen)), cutoff) == ConsumedRows(s, cutoff) - chosen;
      return PurgeConsumed(chosen), |chosen|;
    case CompletedReplays =>
      var chosen := PickSome(ReplayKeys(s, cutoff), batchSize, locked);
      DifferenceSize(ReplayKeys(s, cutoff), chosen);
      assert ReplayKeys(PurgeStep(s, PurgeReplays(chosen)), cutoff) == ReplayKeys(s, cutoff) - chosen;
      return PurgeReplays(chosen), |chosen|;
  }

  function SizeOf(l: Label): (n: nat)
    requires l.Purge?
  {
    match l.batch
    case PurgeOutbox(rows) => |rows|
    case PurgeConsumed(rows) => |rows|
    case PurgeReplays(keys) => |keys|
  }

  /** The number of rows the delete statements removed. */
  function Removed(steps: seq<Label>): (n: nat)
    requires forall i :: 0 <= i < |steps| ==> steps[i].Purge?
  {
    if steps == [] then 0 else Removed(steps[..|steps| - 1]) + SizeOf(steps[|steps| - 1])
  }

  /** One acknowledged statement that removed `deleted` rows. */
  predicate OneBatch(steps: seq<Label>, rule: Rule, cutoff: int, batchSize: nat, deleted: nat) {
    |steps| == 1 && IsBatch(steps[0], rule, cutoff, batchSize) && SizeOf(steps[0]) == deleted
  }

  lemma BatchAdded(steps: seq<Label>, more: seq<Label>, rule: Rule, cutoff: int, batchSize: nat, deleted: nat)
    requires OnlyBatches(steps, rule, cutoff, batchSize) && OneBatch(more, rule, cutoff, batchSize, deleted)
    ensures OnlyBatches(steps + more, rule, cutoff, batchSize) && Removed(steps + more) == Removed(steps) + deleted
  {
    assert (steps + more)[..|steps|] == steps;
  }

  /** The delete statement of a rule. `locked` rows are skipped; an error may hide its effect. */
  method DeleteBatch(w: World, rule: Rule, cutoff: int, batchSize: nat, locked: nat, healthy: bool)
    returns (deleted: nat, failed: bool, ghost steps: seq<Label>)
    requires w.Valid() && cutoff <= w.st.now - RetentionOf(w.cfg, rule)
    modifies w
    ensures w.Valid() && w.st.now == old(w.st.now) && (healthy ==> !failed)
    ensures Own(w.trace, RetentionActor) == Own(old(w.trace), RetentionActor) + steps &&
      OnlyBatches(steps, rule, cutoff, batchSize)
    ensures deleted <= batchSize && Eligible(w.st, rule, cutoff) <= Eligible(old(w.st), rule, cutoff)
    ensures !failed ==> OneBatch(steps, rule, cutoff, batchSize, deleted)
    ensures !failed ==> Eligible(w.st, rule, cutoff) + deleted == Eligible(old(w.st), rule, cutoff)
    ensures locked == 0 ==> deleted == Min(batchSize, Eligible(old(w.st), rule, cutoff))
  {
    var batch: PurgeCall;
    batch, deleted := ChooseBatch(w.cfg, w.st, rule, cutoff, batchSize, locked);
    steps := [];
    var outcome: Outcome := *;
    if healthy { outcome := Done; }
    failed := !outcome.Acked();
    if outcome.TookEffect() {
      steps := [Purge(cutoff, batch)];
      w.Act(RetentionActor, Purge(cutoff, batch));
    }
  }

  /** One turn of the loop, after any number of steps of the others unless the command is alone. */
  method NextBatch(w: World, rule: Rule, cutoff: int, batchSize: nat, alone: bool, healthy: bool)
    returns (deleted: nat, failed: bool, ghost steps: seq<Label>)
    requires w.Valid() && RetentionOf(w.cfg, rule) > 0 && cutoff <= w.st.now - RetentionOf(w.cfg, rule)
    modifies w
    ensures w.Valid() && w.st.now >= old(w.st.now) && (healthy ==> !failed)
    ensures Own(w.trace, RetentionActor) == Own(old(w.trace), RetentionActor) + steps &&
      OnlyBatches(steps, rule, cutoff, batchSize)
    ensures deleted <= batchSize && (!failed ==> OneBatch(steps, rule, cutoff, batchSize, deleted))
    ensures !failed ==> Eligible(w.st, rule, cutoff) + deleted <= Eligible(old(w.st), rule, cutoff)
    ensures alone ==> deleted == Min(batchSize, Eligible(old(w.st), rule, cutoff))
    ensures alone && !failed ==> Eligible(w.st, rule, cutoff) + deleted == Eligible(old(w.st), rule, cutoff)
  {
    var locked := 0;
    if !alone {
      w.Interfere(RetentionActor);
      EligibleShrinks(old(w.st), w.st, rule, cutoff);
      locked := AnyNat();
    }
    deleted, failed, steps := DeleteBatch(w, rule, cutoff, batchSize, locked, healthy);
  }

  /** The delete loop: it ends with a batch that is not full. */
  method DeleteBatches(w: World, rule: Rule, cutoff: int, batchSize: nat, alone: bool, healthy: bool)
    returns (total: nat, failed: bool, ghost steps: seq<Label>)
    requires w.Valid() && batchSize >= 1 && RetentionOf(w.cfg, rule) > 0
    requires cutoff <= w.st.now - RetentionOf(w.cfg, rule)
    modifies w
    ensures w.Valid() && Own(w.trace, RetentionActor) == Own(old(w.trace), RetentionActor) + steps
    ensures OnlyBatches(steps, rule, cutoff, batchSize) && (!failed ==> total == Removed(steps)) && (healthy ==>
      !failed)
    ensures !failed ==> total <= Eligible(old(w.st), rule, cutoff)
    ensures !failed && alone ==>
      Eligible(w.st, rule, cutoff) == 0 && total == Eligible(old(w.st), rule, cutoff) &&
        |steps| == total / batchSize + 1
  {
    total, steps := 0, [];
    while true
      invariant w.Valid() && cutoff <= w.st.now - RetentionOf(w.cfg, rule)
      invariant Own(w.trace, RetentionActor) == Own(old(w.trace), RetentionActor) + steps
      invariant OnlyBatches(steps, rule, cutoff, batchSize) && total == Removed(steps)
      invariant total + Eligible(w.st, rule, cutoff) <= Eligible(old(w.st), rule, cutoff)
      invariant alone ==> total + Eligible(w.st, rule, cutoff) == Eligible(old(w.st), rule, cutoff)
      invariant alone ==> FullBatches(total, |steps|, batchSize)
      decreases Eligible(w.st, rule, cutoff)
    {
      ghost var more: seq<Label>;
      ghost var mine := Own(w.trace, RetentionActor);
      var deleted;
      deleted, failed, more := NextBatch(w, rule, cutoff, batchSize, alone, healthy);
      Chain(Own(old(w.trace), RetentionActor), mine, Own(w.trace, RetentionActor), steps, more);
      if failed {
        steps := steps + more;
        return;
      }
      BatchAdded(steps, more, rule, cutoff, batchSize, deleted);
      if alone { CountBatch(total, |steps|, batchSize, deleted); }
      steps := steps + more;
      total := total + deleted;
      if deleted < batchSize { return; }
    }
  }

  predicate FullBatches(total: nat, n: nat, batchSize: nat) { total == n * batchSize }

  datatype RunResult = RunError | RunResult(eligible: nat, deleted: nat, dryRun: bool)

  /** `RunRule`; `steps` are its delete statements. `alone` says that no other actor steps in and no row is locked, and
      `healthy` that no statement fails. */
  method RunRule(w: World, rule: Rule, now: int, batchSize: int, dryRun: bool, alone: bool, healthy: bool)
    returns (result: RunResult, ghost steps: seq<Label>)
    requires w.Valid() && now <= w.st.now
    modifies w
    ensures w.Valid() && Own(w.trace, RetentionActor) == Own(old(w.trace), RetentionActor) + steps
    ensures steps != [] ==> batchSize >= 1 && OnlyBatches(steps, rule, now - RetentionOf(w.cfg, rule), batchSize)
    ensures RetentionOf(w.cfg, rule) <= 0 || batchSize < 1 ==> result == RunError && w.st == old(w.st) && steps == []
    ensures result.RunResult? ==> result.dryRun == dryRun && result.deleted <= result.eligible
    ensures result.RunResult? ==> result.deleted == Removed(steps)
    ensures result.RunResult? && dryRun ==> steps == []
    ensures healthy && RetentionOf(w.cfg, rule) > 0 && batchSize >= 1 ==> result.RunResult?
    ensures result.RunResult? && alone ==> result.eligible == Old(w.cfg, old(w.st), rule, now)
    ensures result.RunResult? && alone && !dryRun ==>
      && result.deleted == result.eligible && Old(w.cfg, w.st, rule, now) == 0
      && |steps| == result.eligible / batchSize + 1
  {
    EligibleIsOld(w.cfg, old(w.st), rule, now);
    steps := [];
    var retention := RetentionOf(w.cfg, rule);
    if retention <= 0 { return RunError, steps; }
    if batchSize < 1 { return RunError, steps; }
    var cutoff := now - retention;
    if !alone { w.Interfere(RetentionActor); }
    var countFailed: bool := *;
    if countFailed && !healthy { return RunError, steps; }
    var eligible := Eligible(w.st, rule, cutoff);
    if dryRun { return RunResult(eligible, 0, true), steps; }
    var total, failed;
    total, failed, steps := DeleteBatches(w, rule, cutoff, batchSize, alone, healthy);
    EligibleIsOld(w.cfg, w.st, rule, now);
    result := if failed then RunError else RunResult(eligible, total, false);
  }

  lemma Quotient(full: nat, batchSize: nat, rest: nat)
    requires rest < batchSize
    ensures (full * batchSize + rest) / batchSize == full
  {
    var n := full * batchSize + rest;
    var q := n / batchSize;
    assert q * batchSize <= n < q * batchSize + batchSize;
    if full < q { MulMono(full + 1, q, batchSize); }
    if q < full { MulMono(q + 1, full, batchSize); }
  }

  /** After n full batches, one more is full as well, or it is the last and the quotient of the total is n. */
  lemma CountBatch(total: nat, n: nat, batchSize: nat, deleted: nat)
    requires FullBatches(total, n, batchSize) && deleted <= batchSize && batchSize >= 1
    ensures if deleted == batchSize then FullBatches(total + deleted, n + 1, batchSize)
            else (total + deleted) / batchSize == n
  {
    if deleted < batchSize { Quotient(n, batchSize, deleted); }
  }

  /** No purge, whatever the rule and the cutoff, removes an unpublished outbox row or a started replay, and none
      touches payments, accounts, entries, the topic or the dead letters. */
  lemma PurgeSparesWork(cfg: Config, s: State, cutoff: int, batch: PurgeCall)
    requires PurgeEnabled(cfg, s, cutoff, batch)
    ensures var s' := PurgeStep(s, batch);
      && s'.api == s.api && s'.bus == s.bus
      && s'.books.accounts == s.books.accounts && s'.books.entries == s.books.entries
      && (forall id :: id in s.box.rows && s.box.rows[id].status != Published ==> SameAt(s.box.rows, s'.box.rows, id))
      && (forall k :: k in s.audit.rows && s.audit.rows[k].status == Started ==> SameAt(s.audit.rows, s'.audit.rows, k))
  {
  }

  predicate SameAt<K, V(==)>(m: map<K, V>, m': map<K, V>, k: K)
    requires k in m
  {
    k in m' && m'[k] == m[k]
  }

  predicate Since(stamp: Option<int>, from: int) { stamp.Some? && from <= stamp.value }

  /** No purge removes a row whose stamp lies within the retention of its table. */
  lemma PurgeSparesRecent(cfg: Config, s: State, cutoff: int, batch: PurgeCall)
    requires PurgeEnabled(cfg, s, cutoff, batch)
    ensures var s' := PurgeStep(s, batch); var rows, replays := s.box.rows, s.audit.rows;
      && (forall id :: id in rows && Since(rows[id].publishedAt, s.now - cfg.outboxRetention) ==>
            SameAt(rows, s'.box.rows, id))
      && (forall id :: id in s.books.consumed && s.now - cfg.consumedRetention <= s.books.consumed[id] ==>
            SameAt(s.books.consumed, s'.books.consumed, id))
      && (forall k :: k in replays && Since(replays[k].completedAt, s.now - cfg.replayRetention) ==>
            SameAt(replays, s'.audit.rows, k))
  {
  }

  // ----- what retention removes, over whole runs

  /** The row is published, and has been for longer than its retention. */
  predicate OutboxExpired(cfg: Config, s: State, id: nat) {
    && id in s.box.rows && s.box.rows[id].status == Published && s.box.rows[id].publishedAt.Some?
    && s.box.rows[id].publishedAt.value < s.now - cfg.outboxRetention
  }

  /** A step that removes an outbox row removes one that has expired. */
  lemma RemovedRowExpired(cfg: Config, s: State, l: Label, id: nat)
    requires Owned(s.box) && id in s.box.rows && id !in Step(cfg, s, l).box.rows
    ensures OutboxExpired(cfg, s, id)
  {
    if s.box.rows[id].status == Published {
      PublishedStep(cfg, s, l, id);
    } else if Enabled(cfg, s, l) {
      StaysUnpublished(cfg, s, l, id);
      if l.Publish? { PublisherKeys(cfg, s, l.publisher, l.call); }
    }
  }

  ghost predicate ExpiredBy(cfg: Config, partitions: nat, schedule: seq<Label>, i: nat, id: nat)
    requires i < |schedule|
  {
    OutboxExpired(cfg, Reached(cfg, partitions, schedule[..i]), id)
  }

  /** Over any run, an inserted event whose outbox row is gone had been published for longer than the retention at
      some earlier point: unpublished work is never removed, and published rows not before their time. */
  lemma {:induction false} RemovedOnlyAfterRetention(cfg: Config, partitions: nat, schedule: seq<Label>, id: nat)
    requires id in Reached(cfg, partitions, schedule).box.events && id !in Reached(cfg, partitions, schedule).box.rows
    ensures exists i :: 0 <= i < |schedule| && ExpiredBy(cfg, partitions, schedule, i, id)
  {
    if schedule != [] {
      var n := |schedule| - 1;
      var s, l := Reached(cfg, partitions, schedule[..n]), schedule[n];
      ReachedOwned(cfg, partitions, schedule[..n]);
      if id in s.box.rows {
        RemovedRowExpired(cfg, s, l, id);
        assert ExpiredBy(cfg, partitions, schedule, n, id);
      } else if id in s.box.events {
        RemovedOnlyAfterRetention(cfg, partitions, schedule[..n], id);
        var i :| 0 <= i < n && ExpiredBy(cfg, partitions, schedule[..n], i, id);
        assert schedule[..n][..i] == schedule[..i];
        assert ExpiredBy(cfg, partitions, schedule, i, id);
      } else if Enabled(cfg, s, l) {
        NewEventWaits(cfg, s, l, id);
      }
    }
  }

  /** A replay's audit row leaves the table only when it is complete, and has been for longer than its retention. */
  lemma RemovedReplayExpired(cfg: Config, s: State, l: Label, key: Text)
    requires key in s.audit.rows && key !in Step(cfg, s, l).audit.rows
    ensures ReplayExpired(cfg, s, key)
  {
    if Enabled(cfg, s, l) {
      match l
      case Operate(o, command) => OperatorKeepsRows(cfg, s, o, command, key);
      case Purge(cutoff, batch) =>
        PurgeSparesWork(cfg, s, cutoff, batch);
        PurgeSparesRecent(cfg, s, cutoff, batch);
      case _ => ReplayAudit.AuditFrame(cfg, s, l);
    }
  }

  lemma OperatorKeepsRows(cfg: Config, s: State, o: nat, call: OperatorCall, key: Text)
    requires OperatorEnabled(s, o, call) && key in s.audit.rows
    ensures key in OperatorStep(cfg, s, o, call).audit.rows
  {
  }

  /** The audit row is complete, and has been for longer than its retention. */
  predicate ReplayExpired(cfg: Config, s: State, key: Text) {
    && key in s.audit.rows && s.audit.rows[key].status != Started && s.audit.rows[key].completedAt.Some?
    && s.audit.rows[key].completedAt.value < s.now - cfg.replayRetention
  }

  ghost predicate ReplayExpiredBy(cfg: Config, partitions: nat, before: seq<Label>, after: seq<Label>, i: nat,
        key: Text)
    requires i < |after|
  {
    ReplayExpired(cfg, Reached(cfg, partitions, before + after[..i]), key)
  }

  /** Over any run, an audit row that was there and is gone had been complete for longer than the retention at some
      point in between: a started replay is never removed, and a completed one not before its time. */
  lemma {:induction false} ReplayRemovedOnlyAfterRetention(cfg: Config, partitions: nat, before: seq<Label>,
        after: seq<Label>, key: Text)
    requires key in Reached(cfg, partitions, before).audit.rows
    requires key !in Reached(cfg, partitions, before + after).audit.rows
    ensures exists i :: 0 <= i < |after| && ReplayExpiredBy(cfg, partitions, before, after, i, key)
  {
    assert before + [] == before;
    if after != [] {
      var n := |after| - 1;
      var s := Reached(cfg, partitions, before + after[..n]);
      assert (before + after)[..|before + after| - 1] == before + after[..n];
      if key in s.audit.rows {
        RemovedReplayExpired(cfg, s, after[n], key);
        assert ReplayExpiredBy(cfg, partitions, before, after, n, key);
      } else {
        ReplayRemovedOnlyAfterRetention(cfg, partitions, before, after[..n], key);
        var i :| 0 <= i < n && ReplayExpiredBy(cfg, partitions, before, after[..n], i, key);
        assert after[..n][..i] == after[..i];
        assert ReplayExpiredBy(cfg, partitions, before, after, i, key);
      }
    }
  }
}
