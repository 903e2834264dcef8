/** A consumer can always get past the message it is at: a crash frees it, and when no call fails, the message is
    ignored, buried or posted, and then committed. */
module Passing {
  import opened Common
  import opened DeadLetter
  import opened System
  import opened History
  import opened Delivery
  import Ledger

  /** Consumer k is in local state c, and nothing but accounts has changed. */
  ghost predicate AtStage(s: State, s': State, k: nat, c: Consumer) {
    && k < |s.bus.partitions| && s' == s.(books := s'.books, bus := SetConsumer(s.bus, k, c))
    && s'.books.consumed == s.books.consumed && s'.books.postings == s.books.postings
  }

  /** The message at the offset was passed, and the logs, the other partitions and the other tables are as they were. */
  ghost predicate Committed(s: State, s': State, k: nat) {
    && Current(s.bus, k) && s.bus.deadLetters <= s'.bus.deadLetters
    && s' == s.(books := s'.books, bus := s'.bus)
    && s'.bus.partitions == s.bus.partitions[k :=
         Partition(s.bus.partitions[k].log, s.bus.partitions[k].committed + 1, Idle)]
  }

  /** The transaction of `CreateTransactionOnce`, as far as deduplication is concerned. */
  ghost predicate PostedOnceMore(b: Books, b': Books, event: nat, now: int) {
    if event in b.consumed then b'.consumed == b.consumed && b'.postings == b.postings
    else
      && b'.consumed == b.consumed[event := now]
      && |b'.postings| == |b.postings| + 1 && b'.postings[..|b.postings|] == b.postings
      && b'.postings[|b.postings|].event == event
  }

  lemma Fetched(cfg: Config, s: State, k: nat) returns (after: seq<Label>)
    requires Current(s.bus, k)
    ensures AtStage(s, Run(cfg, s, after), k, Handling(1, Start))
  {
    var crash, fetch := Consume(k, ConsumerCrash), Consume(k, Fetch);
    RunTwo(cfg, s, crash, fetch);
    after := [crash, fetch];
  }

  /** Without a movement every attempt is decided locally, until the message is settled or the attempts are used up. */
  lemma {:induction false} Decided(cfg: Config, s: State, k: nat) returns (after: seq<Label>, c: Consumer)
    requires Handles(s.bus, k) && s.bus.partitions[k].consumer.stage == Start && HeldMovement(s.bus, k) == None
    ensures AtStage(s, Run(cfg, s, after), k, c) && (c == Settled || c.Broken?)
    decreases cfg.maxAttempts - s.bus.partitions[k].consumer.attempt
  {
    var decide := Consume(k, Decide);
    DecideLocal(cfg, s, k);
    var s1 := Step(cfg, s, decide);
    c := s1.bus.partitions[k].consumer;
    var rest := [];
    if c.Handling? { rest, c := Decided(cfg, s1, k); }
    RunFirst(cfg, s, decide, rest);
    after := [decide] + rest;
  }

  lemma Buried(cfg: Config, s: State, k: nat) returns (after: seq<Label>)
    requires Current(s.bus, k) && s.bus.partitions[k].consumer.Broken?
    ensures Committed(s, Run(cfg, s, after), k) && Run(cfg, s, after).books == s.books
    ensures Run(cfg, s, after).bus.deadLetters == s.bus.deadLetters + [RecordOf(Held(s.bus, k), k,
      s.bus.partitions[k].committed, "", s.bus.partitions[k].consumer.attempts, s.now)]
  {
    var bury, commit := Consume(k, Bury("", 1, true)), Consume(k, Commit(Done));
    RunTwo(cfg, s, bury, commit);
    after := [bury, commit];
  }

  lemma CommittedSettled(cfg: Config, s: State, k: nat) returns (l: Label)
    requires Current(s.bus, k) && s.bus.partitions[k].consumer == Settled
    ensures Committed(s, Step(cfg, s, l), k) && Step(cfg, s, l).books == s.books
  {
    l := Consume(k, Commit(Done));
  }

  lemma EnsuredCash(cfg: Config, s: State, k: nat) returns (l: Label, cash: nat)
    requires Handles(s.bus, k) && s.bus.partitions[k].consumer.stage == Start && HeldMovement(s.bus, k).Some?
    ensures AtStage(s, Step(cfg, s, l), k, s.bus.partitions[k].consumer.(stage := CashReady(cash)))
  {
    var id := FreshId(s.books.ids);
    var call := EnsureCash(id, Done);
    cash := CashLocal(cfg, s, k, id, Done);
    ConsumerBooksQuiet(cfg, s, k, call);
    ConsumerFrame(cfg, s, k, call);
    l := Consume(k, call);
  }

  lemma EnsuredPayable(cfg: Config, s: State, k: nat) returns (l: Label, payable: nat)
    requires Handles(s.bus, k) && s.bus.partitions[k].consumer.stage.CashReady? && HeldMovement(s.bus, k).Some?
    ensures AtStage(s, Step(cfg, s, l), k,
      s.bus.partitions[k].consumer.(stage := BothReady(s.bus.partitions[k].consumer.stage.cash, payable)))
  {
    var id := FreshId(s.books.ids);
    var call := EnsurePayable(id, Done);
    payable := PayableLocal(cfg, s, k, id, Done);
    ConsumerBooksQuiet(cfg, s, k, call);
    ConsumerFrame(cfg, s, k, call);
    l := Consume(k, call);
  }

  lemma PostedHeld(cfg: Config, s: State, k: nat) returns (l: Label)
    requires Handles(s.bus, k) && s.bus.partitions[k].consumer.stage.BothReady? && HeldMovement(s.bus, k).Some?
    ensures var s' := Step(cfg, s, l);
      s' == s.(books := s'.books, bus := SetConsumer(s.bus, k, Settled)) &&
      PostedOnceMore(s.books, s'.books, HeldMovement(s.bus, k).value.0, s.now)
  {
    var t := FreshId(s.books.ids);
    var call := Post(t, t + 1, t + 2, Done);
    PostLocal(cfg, s, k, t, t + 1, t + 2, Done);
    ConsumerFrame(cfg, s, k, call);
    l := Consume(k, call);
  }

  lemma StageCommitted(s: State, between: State, s': State, k: nat, c: Consumer)
    requires k < |s.bus.partitions| && between == s.(books := between.books, bus := SetConsumer(s.bus, k, c))
    requires Committed(between, s', k)
    ensures Committed(s, s', k)
  {
  }

  /** From the stage where both accounts are known. */
  lemma PostedAndCommitted(cfg: Config, s: State, k: nat) returns (after: seq<Label>)
    requires Handles(s.bus, k) && s.bus.partitions[k].consumer.stage.BothReady? && HeldMovement(s.bus, k).Some?
    ensures Committed(s, Run(cfg, s, after), k)
    ensures PostedOnceMore(s.books, Run(cfg, s, after).books, HeldMovement(s.bus, k).value.0, s.now)
  {
    var post := PostedHeld(cfg, s, k);
    var posted := Step(cfg, s, post);
    var commit := CommittedSettled(cfg, posted, k);
    StageCommitted(s, posted, Step(cfg, posted, commit), k, Settled);
    RunTwo(cfg, s, post, commit);
    after := [post, commit];
  }

  lemma BothEnsured(cfg: Config, s: State, k: nat) returns (after: seq<Label>, cash: nat, payable: nat)
    requires Handles(s.bus, k) && s.bus.partitions[k].consumer.stage == Start && HeldMovement(s.bus, k).Some?
    ensures AtStage(s, Run(cfg, s, after), k, s.bus.partitions[k].consumer.(stage := BothReady(cash, payable)))
  {
    var l1, l2;
    l1, cash := EnsuredCash(cfg, s, k);
    l2, payable := EnsuredPayable(cfg, Step(cfg, s, l1), k);
    RunTwo(cfg, s, l1, l2);
    after := [l1, l2];
  }

  /** A message that carries a movement is posted, unless its event has a dedup row. */
  lemma PassMovement(cfg: Config, s: State, k: nat) returns (after: seq<Label>)
    requires Current(s.bus, k) && HeldMovement(s.bus, k).Some?
    ensures Committed(s, Run(cfg, s, after), k)
    ensures PostedOnceMore(s.books, Run(cfg, s, after).books, HeldMovement(s.bus, k).value.0, s.now)
  {
    var first := Fetched(cfg, s, k);
    var s1 := Run(cfg, s, first);
    var second, cash, payable := BothEnsured(cfg, s1, k);
    var s2 := Run(cfg, s1, second);
    var third := PostedAndCommitted(cfg, s2, k);
    RunAppend(cfg, s, first, second + third);
    RunAppend(cfg, s1, second, third);
    after := first + (second + third);
  }

  /** In any state, whatever the message at the consumer's offset is, some steps of the consumer pass it, and post it if
      it carries a movement. */
  lemma PassMessage(cfg: Config, s: State, k: nat) returns (after: seq<Label>)
    requires Current(s.bus, k)
    ensures Committed(s, Run(cfg, s, after), k)
    ensures if HeldMovement(s.bus, k) == None then Run(cfg, s, after).books.postings == s.books.postings
            else PostedOnceMore(s.books, Run(cfg, s, after).books, HeldMovement(s.bus, k).value.0, s.now)
  {
    if HeldMovement(s.bus, k).Some? {
      after := PassMovement(cfg, s, k);
    } else {
      var first := Fetched(cfg, s, k);
      var s1 := Run(cfg, s, first);
      var second, c := Decided(cfg, s1, k);
      var s2 := Run(cfg, s1, second);
      var third := Closed(cfg, s2, k);
      RunAppend(cfg, s, first, second + third);
      RunAppend(cfg, s1, second, third);
      after := first + (second + third);
    }
  }

  lemma Closed(cfg: Config, s: State, k: nat) returns (after: seq<Label>)
    requires Current(s.bus, k) && (s.bus.partitions[k].consumer == Settled || s.bus.partitions[k].consumer.Broken?)
    ensures Committed(s, Run(cfg, s, after), k) && Run(cfg, s, after).books == s.books
  {
    if s.bus.partitions[k].consumer == Settled {
      var commit := CommittedSettled(cfg, s, k);
      RunFirst(cfg, s, commit, []);
      after := [commit] + [];
    } else {
      after := Buried(cfg, s, k);
    }
  }
}
