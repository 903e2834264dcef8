/** What an error or a crash can hide: a call's caller may be wrong about its effect, but the effect is all or nothing
    and
    does not depend on what the caller is told; and a crash forgets the actor's own place, and nothing else. */
module Atomicity {
  import opened Common
  import opened System
  import Rules = PaymentRules

  /** The same tables, topics and offsets; actors' local state and the history aside. */
  ghost predicate SameStores(s: State, s': State) {
    && s'.api.payments == s.api.payments && s'.api.keyIndex == s.api.keyIndex && s'.box.rows == s.box.rows
    && s'.books.accounts == s.books.accounts && s'.books.consumed == s.books.consumed
    && s'.books.entries == s.books.entries && s'.audit.rows == s.audit.rows
    && SameTopics(s.bus, s'.bus)
  }

  ghost predicate SameTopics(bus: Bus, bus': Bus) {
    && bus'.deadLetters == bus.deadLetters && |bus'.partitions| == |bus.partitions|
    && forall k :: 0 <= k < |bus.partitions| ==> SameLog(bus.partitions[k], bus'.partitions[k])
  }

  predicate SameLog(p: Partition, p': Partition) { p'.log == p.log && p'.committed == p.committed }

  /** The calls that end with an outcome: transactions, and the offset commit. */
  predicate HasOutcome(l: Label) {
    match l
    case Client(_, request) => request.Insert? || request.Swap?
    case Publish(_, call) => call.ClaimPending? || call.Mark?
    case Consume(_, step) => step.EnsureCash? || step.EnsurePayable? || step.Post? || step.Commit?
    case Operate(_, command) => command.StartReplay? || command.FinishReplay?
    case _ => false
  }

  function ClientEnding(call: ApiCall, outcome: Outcome): (r: ApiCall) {
    match call
    case Insert(id, event, request, key, _) => Insert(id, event, request, key, outcome)
    case Swap(event, _) => Swap(event, outcome)
    case _ => call
  }

  function PublisherEnding(call: PublisherCall, outcome: Outcome): (r: PublisherCall) {
    match call
    case ClaimPending(limit, chosen, _) => ClaimPending(limit, chosen, outcome)
    case Mark(id, published, _) => Mark(id, published, outcome)
    case _ => call
  }

  function ConsumerEnding(call: ConsumerCall, outcome: Outcome): (r: ConsumerCall) {
    match call
    case EnsureCash(id, _) => EnsureCash(id, outcome)
    case EnsurePayable(id, _) => EnsurePayable(id, outcome)
    case Post(transaction, debitId, creditId, _) => Post(transaction, debitId, creditId, outcome)
    case Commit(_) => Commit(outcome)
    case _ => call
  }

  function OperatorEnding(call: OperatorCall, outcome: Outcome): (r: OperatorCall) {
    match call
    case StartReplay(index, name, reason, id, _) => StartReplay(index, name, reason, id, outcome)
    case FinishReplay(succeeded, _) => FinishReplay(succeeded, outcome)
    case _ => call
  }

  /** The same call, ending so. */
  function Ending(l: Label, outcome: Outcome): (r: Label) {
    match l
    case Client(c, request) => Client(c, ClientEnding(request, outcome))
    case Publish(p, call) => Publish(p, PublisherEnding(call, outcome))
    case Consume(k, step) => Consume(k, ConsumerEnding(step, outcome))
    case Operate(o, command) => Operate(o, OperatorEnding(command, outcome))
    case _ => l
  }

  /** The three ends of one call, from state s. */
  ghost predicate Atomic(s: State, done: State, doneButError: State, notDone: State) {
    SameStores(done, doneButError) && SameStores(s, notDone)
  }

  lemma InsertAtomic(s: State, c: nat, id: nat, event: nat, raw: Rules.CreateRequest, key: string)
    ensures Atomic(s, CreatePayment(s, c, id, event, raw, key, Done),
      CreatePayment(s, c, id, event, raw, key, DoneButError), CreatePayment(s, c, id, event, raw, key, NotDone))
  {
  }

  lemma SwapAtomic(s: State, c: nat, u: Client, event: nat)
    requires u.Updating?
    ensures Atomic(s, CompareAndSet(s, c, u.payment, u.previous, u.target, event, Done),
      CompareAndSet(s, c, u.payment, u.previous, u.target, event, DoneButError),
      CompareAndSet(s, c, u.payment, u.previous, u.target, event, NotDone))
  {
  }

  lemma ClientAtomic(s: State, c: nat, call: ApiCall)
    requires ClientEnabled(s, c, call) && (call.Insert? || call.Swap?)
    ensures Atomic(s, ClientStep(s, c, ClientEnding(call, Done)), ClientStep(s, c, ClientEnding(call, DoneButError)),
      ClientStep(s, c, ClientEnding(call, NotDone)))
  {
    match call
    case Insert(id, event, request, key, _) => InsertAtomic(s, c, id, event, request, key);
    case Swap(event, _) => SwapAtomic(s, c, s.api.clients[c], event);
  }

  lemma PublisherAtomic(cfg: Config, s: State, p: nat, call: PublisherCall)
    requires PublisherEnabled(s, p, call) && (call.ClaimPending? || call.Mark?)
    ensures Atomic(s, PublisherStep(cfg, s, p, PublisherEnding(call, Done)),
      PublisherStep(cfg, s, p, PublisherEnding(call, DoneButError)),
        PublisherStep(cfg, s, p, PublisherEnding(call, NotDone)))
  {
  }

  lemma LedgerAtomic(cfg: Config, s: State, k: nat, call: ConsumerCall)
    requires ConsumerEnabled(s, k, call) && (call.EnsureCash? || call.EnsurePayable?)
    ensures Atomic(s, ConsumerStep(cfg, s, k, ConsumerEnding(call, Done)),
      ConsumerStep(cfg, s, k, ConsumerEnding(call, DoneButError)),
        ConsumerStep(cfg, s, k, ConsumerEnding(call, NotDone)))
  {
  }

  lemma ConsumerAtomic(cfg: Config, s: State, k: nat, call: ConsumerCall)
    requires ConsumerEnabled(s, k, call) && (call.EnsureCash? || call.EnsurePayable? || call.Post? || call.Commit?)
    ensures Atomic(s, ConsumerStep(cfg, s, k, ConsumerEnding(call, Done)),
      ConsumerStep(cfg, s, k, ConsumerEnding(call, DoneButError)),
        ConsumerStep(cfg, s, k, ConsumerEnding(call, NotDone)))
  {
    if call.EnsureCash? || call.EnsurePayable? { LedgerAtomic(cfg, s, k, call); }
  }

  lemma OperatorAtomic(cfg: Config, s: State, o: nat, call: OperatorCall)
    requires OperatorEnabled(s, o, call) && (call.StartReplay? || call.FinishReplay?)
    ensures Atomic(s, OperatorStep(cfg, s, o, OperatorEnding(call, Done)),
      OperatorStep(cfg, s, o, OperatorEnding(call, DoneButError)),
        OperatorStep(cfg, s, o, OperatorEnding(call, NotDone)))
  {
  }

  lemma EndingStep(cfg: Config, s: State, l: Label, outcome: Outcome)
    requires HasOutcome(l) && Enabled(cfg, s, l)
    ensures Enabled(cfg, s, Ending(l, outcome))
  {
  }

  /** In any state, a call that reports an error has had its whole effect, or none. */
  lemma AllOrNothing(cfg: Config, s: State, l: Label)
    requires HasOutcome(l) && Enabled(cfg, s, l)
    ensures SameStores(Step(cfg, s, Ending(l, Done)), Step(cfg, s, Ending(l, DoneButError)))
    ensures SameStores(s, Step(cfg, s, Ending(l, NotDone)))
  {
    EndingStep(cfg, s, l, Done);
    EndingStep(cfg, s, l, DoneButError);
    EndingStep(cfg, s, l, NotDone);
    EndsAtomic(cfg, s, l);
  }

  lemma EndsAtomic(cfg: Config, s: State, l: Label)
    requires HasOutcome(l) && Enabled(cfg, s, Ending(l, Done)) && Enabled(cfg, s, Ending(l, DoneButError)) &&
      Enabled(cfg, s, Ending(l, NotDone))
    ensures Atomic(s, Apply(cfg, s, Ending(l, Done)), Apply(cfg, s, Ending(l, DoneButError)),
      Apply(cfg, s, Ending(l, NotDone)))
  {
    match l
    case Client(c, request) => ClientAtomic(s, c, request);
    case Publish(p, call) => PublisherAtomic(cfg, s, p, call);
    case Consume(k, step) => ConsumerAtomic(cfg, s, k, step);
    case Operate(o, command) => OperatorAtomic(cfg, s, o, command);
  }

  /** A client that sees an error is given no answer, or one that refuses the request. */
  predicate NoSuccessTold(a: Api, a': Api) {
    a'.replies == a.replies ||
    (|a'.replies| == |a.replies| + 1 && a'.replies[..|a.replies|] == a.replies &&
      (a'.replies[|a.replies|].ConflictReply? || a'.replies[|a.replies|].MissingReply? ||
        a'.replies[|a.replies|].NotFoundReply?))
  }

  /** No success is told on an error. */
  lemma ErrorsTellNoSuccess(s: State, c: nat, call: ApiCall)
    requires ClientEnabled(s, c, call) && (call.Insert? || call.Select? || call.Swap?) && call.outcome != Done
    ensures NoSuccessTold(s.api, ClientStep(s, c, call).api)
  {
  }

  predicate IsCrash(l: Label) {
    match l
    case Client(_, request) => request.Abandon?
    case Publish(_, call) => call.PublisherCrash?
    case Consume(_, step) => step.ConsumerCrash?
    case Operate(_, command) => command.OperatorCrash?
    case _ => false
  }

  /** The actor is between two of its calls. */
  predicate Busy(s: State, l: Label) {
    match l
    case Client(c, _) => c in s.api.clients
    case Publish(p, _) => p in s.box.publishers
    case Consume(k, _) => k < |s.bus.partitions| && s.bus.partitions[k].consumer != Idle
    case Operate(o, _) => o in s.audit.operators
    case _ => false
  }

  /** A crash can come at any point, and leaves the actor idle and everything stored as it was. */
  lemma CrashForgetsOnly(cfg: Config, s: State, l: Label)
    requires IsCrash(l) && Busy(s, l)
    ensures Enabled(cfg, s, l) && !Busy(Step(cfg, s, l), l) && SameStores(s, Step(cfg, s, l))
  {
  }
}
