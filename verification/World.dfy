/** The running system as one mutable object: every call a program makes on it is preceded by any number of steps
    of the other actors, and is itself one step of the transition system. So whatever holds in every reachable
    state holds throughout the programs below. */
module World {
  import opened Common
  import opened Messages
  import opened DeadLetter
  import opened System
  import opened OutboxProtocol
  import opened History
  import opened Delivery
  import Rules = PaymentRules

  datatype Actor =
    | ClientActor(c: nat)
    | PublisherActor(p: nat)
    | ConsumerActor(k: nat)
    | OperatorActor(o: nat)
    | RetentionActor
    | ClockActor
    | OtherProducer

  function Owner(l: Label): (actor: Actor) {
    match l
    case Tick(_) => ClockActor
    case Client(c, _) => ClientActor(c)
    case Publish(p, _) => PublisherActor(p)
    case Consume(k, _) => ConsumerActor(k)
    case Operate(o, _) => OperatorActor(o)
    case Purge(_, _) => RetentionActor
    case Produce(_, _) => OtherProducer
  }

  /** The steps of one actor, in order. */
  function Own(trace: seq<Label>, me: Actor): (steps: seq<Label>) {
    if trace == [] then []
    else
      var rest := Own(trace[..|trace| - 1], me);
      if Owner(trace[|trace| - 1]) == me then rest + [trace[|trace| - 1]] else rest
  }

  lemma OwnSnoc(trace: seq<Label>, l: Label, me: Actor)
    ensures Own(trace + [l], me) == Own(trace, me) + (if Owner(l) == me then [l] else [])
  {
  }

  predicate SamePublisher(b: Box, b': Box, p: nat) {
    (p in b.publishers <==> p in b'.publishers) && (p in b.publishers ==> b'.publishers[p] == b.publishers[p])
  }

  predicate SameConsumer(bus: Bus, bus': Bus, k: nat) {
    |bus'.partitions| == |bus.partitions| &&
    (k < |bus.partitions| ==>
      var p, p' := bus.partitions[k], bus'.partitions[k];
      p.log <= p'.log && p'.committed == p.committed && p'.consumer == p.consumer)
  }

  predicate SameOperator(a: Audit, a': Audit, o: nat) {
    (o in a.operators <==> o in a'.operators) && (o in a.operators ==> a'.operators[o] == a.operators[o])
  }

  predicate SameClient(a: Api, a': Api, c: nat) {
    (c in a.clients <==> c in a'.clients) && (c in a.clients ==> a'.clients[c] == a.clients[c])
  }

  predicate PaymentsStay(a: Api, a': Api) { forall p :: p in a.payments ==> p in a'.payments }

  /** No row becomes eligible for a cutoff that has passed: new stamps are not older than the clock. */
  ghost predicate NoNewlyEligible(s: State, s': State) {
    forall cutoff :: cutoff <= s.now ==> FewerEligible(s, s', cutoff)
  }

  ghost predicate FewerEligible(s: State, s': State, cutoff: int) {
    && (forall id :: OutboxEligible(s'.box.rows, id, cutoff) ==> OutboxEligible(s.box.rows, id, cutoff))
    && (forall id :: ConsumedEligible(s'.books.consumed, id, cutoff) ==> ConsumedEligible(s.books.consumed, id, cutoff))
    && (forall k :: ReplayEligible(s'.audit.rows, k, cutoff) ==> ReplayEligible(s.audit.rows, k, cutoff))
  }

  /** What the other actors' steps leave to an actor. */
  ghost predicate Undisturbed(me: Actor, s: State, s': State) {
    && s.now <= s'.now
    && LogsGrow(s.bus, s'.bus)
    && match me
       case ClientActor(c) => SameClient(s.api, s'.api, c) && PaymentsStay(s.api, s'.api)
       case PublisherActor(p) => SamePublisher(s.box, s'.box, p)
       case ConsumerActor(k) => SameConsumer(s.bus, s'.bus, k)
       case OperatorActor(o) => SameOperator(s.audit, s'.audit, o) && s.bus.deadLetters <= s'.bus.deadLetters
       case RetentionActor => NoNewlyEligible(s, s')
       case ClockActor => true
       case OtherProducer => true
  }

  // ----- every step of another actor leaves it undisturbed

  lemma ClientEligible(s: State, c: nat, call: ApiCall, id: nat, cutoff: int)
    requires ClientEnabled(s, c, call) && OutboxEligible(ClientStep(s, c, call).box.rows, id, cutoff)
    ensures OutboxEligible(s.box.rows, id, cutoff)
  {
    InsertsAtMostOne(s, c, call);
  }

  lemma InsertClients(s: State, c: nat, id: nat, event: nat, raw: Rules.CreateRequest, rawKey: string,
        outcome: Outcome, d: nat)
    requires d != c
    ensures var a' := CreatePayment(s, c, id, event, raw, rawKey, outcome).api;
      SameClient(s.api, a', d) && PaymentsStay(s.api, a')
  {
  }

  lemma SwapClients(s: State, c: nat, id: nat, previous: PaymentStatus, target: PaymentStatus, event: nat,
        outcome: Outcome, d: nat)
    requires d != c
    ensures var a' := CompareAndSet(s, c, id, previous, target, event, outcome).api;
      SameClient(s.api, a', d) && PaymentsStay(s.api, a')
  {
  }

  lemma OtherClients(s: State, c: nat, call: ApiCall, d: nat)
    requires ClientEnabled(s, c, call) && d != c
    ensures SameClient(s.api, ClientStep(s, c, call).api, d) && PaymentsStay(s.api, ClientStep(s, c, call).api)
  {
    match call
    case Insert(id, event, request, key, outcome) => InsertClients(s, c, id, event, request, key, outcome, d);
    case Swap(event, outcome) =>
      var u := s.api.clients[c];
      SwapClients(s, c, u.payment, u.previous, u.target, event, outcome, d);
    case _ =>
  }

  lemma ClientUndisturbed(s: State, c: nat, call: ApiCall, me: Actor)
    requires ClientEnabled(s, c, call) && me != ClientActor(c)
    ensures Undisturbed(me, s, ClientStep(s, c, call))
  {
    var s' := ClientStep(s, c, call);
    ClientFrame(s, c, call);
    match me
    case ClientActor(d) => OtherClients(s, c, call, d);
    case PublisherActor(_) => InsertsAtMostOne(s, c, call);
    case RetentionActor =>
      forall cutoff | cutoff <= s.now ensures FewerEligible(s, s', cutoff) {
        forall id | OutboxEligible(s'.box.rows, id, cutoff) ensures OutboxEligible(s.box.rows, id, cutoff) {
          ClientEligible(s, c, call, id, cutoff);
        }
      }
    case _ =>
  }

  lemma MarkedNotEligible(rows: map<nat, OutboxRow>, id: nat, published: bool, now: int, k: nat, cutoff: int)
    requires cutoff <= now && OutboxEligible(MarkRow(rows, id, published, now), k, cutoff)
    ensures OutboxEligible(rows, k, cutoff)
  {
  }

  lemma PublisherRowsEligible(cfg: Config, s: State, p: nat, call: PublisherCall, id: nat, cutoff: int)
    requires PublisherEnabled(s, p, call) && cutoff <= s.now &&
      OutboxEligible(PublisherStep(cfg, s, p, call).box.rows, id, cutoff)
    ensures OutboxEligible(s.box.rows, id, cutoff)
  {
    if call.Mark? && call.outcome.TookEffect() {
      MarkedNotEligible(s.box.rows, s.box.publishers[p].queue[0].id, s.box.publishers[p].wrote.value, s.now, id,
        cutoff);
    }
  }

  lemma PublisherUndisturbed(cfg: Config, s: State, p: nat, call: PublisherCall, me: Actor)
    requires PublisherEnabled(s, p, call) && me != PublisherActor(p)
    ensures Undisturbed(me, s, PublisherStep(cfg, s, p, call))
  {
    var s' := PublisherStep(cfg, s, p, call);
    if me == RetentionActor {
      forall cutoff | cutoff <= s.now ensures FewerEligible(s, s', cutoff) {
        forall id | OutboxEligible(s'.box.rows, id, cutoff) ensures OutboxEligible(s.box.rows, id, cutoff) {
          PublisherRowsEligible(cfg, s, p, call, id, cutoff);
        }
      }
    }
  }

  lemma ConsumerEligible(cfg: Config, s: State, k: nat, call: ConsumerCall, id: nat, cutoff: int)
    requires ConsumerEnabled(s, k, call) && cutoff <= s.now &&
      ConsumedEligible(ConsumerStep(cfg, s, k, call).books.consumed, id, cutoff)
    ensures ConsumedEligible(s.books.consumed, id, cutoff)
  {
  }

  lemma OtherConsumers(cfg: Config, s: State, k: nat, call: ConsumerCall, j: nat)
    requires ConsumerEnabled(s, k, call) && j != k
    ensures SameConsumer(s.bus, ConsumerStep(cfg, s, k, call).bus, j)
  {
  }

  lemma ConsumerUndisturbed(cfg: Config, s: State, k: nat, call: ConsumerCall, me: Actor)
    requires ConsumerEnabled(s, k, call) && me != ConsumerActor(k)
    ensures Undisturbed(me, s, ConsumerStep(cfg, s, k, call))
  {
    var s' := ConsumerStep(cfg, s, k, call);
    ConsumerFrame(cfg, s, k, call);
    if !call.Bury? && !call.Commit? { ConsumerLocal(cfg, s, k, call); }
    match me
    case ConsumerActor(j) => OtherConsumers(cfg, s, k, call, j);
    case RetentionActor =>
      forall cutoff | cutoff <= s.now ensures FewerEligible(s, s', cutoff) {
        forall id | ConsumedEligible(s'.books.consumed, id, cutoff)
          ensures ConsumedEligible(s.books.consumed, id, cutoff)
        {
          ConsumerEligible(cfg, s, k, call, id, cutoff);
        }
      }
    case OperatorActor(_) => DeadLettersGrow(cfg, s, k, call);
    case _ =>
  }

  lemma DeadLettersGrow(cfg: Config, s: State, k: nat, call: ConsumerCall)
    requires ConsumerEnabled(s, k, call)
    ensures s.bus.deadLetters <= ConsumerStep(cfg, s, k, call).bus.deadLetters
  {
  }

  lemma BeginEligible(a: Audit, o: nat, record: Record, topic: string, name: string, reason: string, id: nat,
        outcome: Outcome, key: Text, cutoff: int)
    requires ReplayEligible(BeginReplay(a, o, record, topic, name, reason, id, outcome).rows, key, cutoff)
    ensures ReplayEligible(a.rows, key, cutoff)
  {
  }

  lemma EndEligible(a: Audit, o: nat, now: int, outcome: Outcome, key: Text, cutoff: int)
    requires o in a.operators && a.operators[o].wrote.Some? && cutoff <= now
    requires ReplayEligible(EndReplay(a, o, now, outcome).rows, key, cutoff)
    ensures ReplayEligible(a.rows, key, cutoff)
  {
  }

  lemma OperatorEligible(cfg: Config, s: State, o: nat, call: OperatorCall, key: Text, cutoff: int)
    requires OperatorEnabled(s, o, call) && cutoff <= s.now &&
      ReplayEligible(OperatorStep(cfg, s, o, call).audit.rows, key, cutoff)
    ensures ReplayEligible(s.audit.rows, key, cutoff)
  {
    match call
    case StartReplay(index, name, reason, id, outcome) =>
      BeginEligible(s.audit, o, s.bus.deadLetters[index], cfg.topic, name, reason, id, outcome, key, cutoff);
    case FinishReplay(_, outcome) => EndEligible(s.audit, o, s.now, outcome, key, cutoff);
    case _ =>
  }

  lemma OperatorUndisturbed(cfg: Config, s: State, o: nat, call: OperatorCall, me: Actor)
    requires OperatorEnabled(s, o, call) && me != OperatorActor(o)
    ensures Undisturbed(me, s, OperatorStep(cfg, s, o, call))
  {
    var s' := OperatorStep(cfg, s, o, call);
    if me == RetentionActor {
      forall cutoff | cutoff <= s.now ensures FewerEligible(s, s', cutoff) {
        forall key | ReplayEligible(s'.audit.rows, key, cutoff) ensures ReplayEligible(s.audit.rows, key, cutoff) {
          OperatorEligible(cfg, s, o, call, key, cutoff);
        }
      }
    }
  }

  lemma StepUndisturbed(cfg: Config, s: State, l: Label, me: Actor)
    requires Owner(l) != me
    ensures Undisturbed(me, s, Step(cfg, s, l))
  {
    if Enabled(cfg, s, l) {
      match l
      case Tick(_) =>
      case Client(c, request) => ClientUndisturbed(s, c, request, me);
      case Publish(p, call) => PublisherUndisturbed(cfg, s, p, call, me);
      case Consume(k, step) => ConsumerUndisturbed(cfg, s, k, step, me);
      case Operate(o, command) => OperatorUndisturbed(cfg, s, o, command, me);
      case Purge(_, batch) =>
      case Produce(_, _) =>
    }
  }

  lemma UndisturbedTransitive(me: Actor, a: State, b: State, c: State)
    requires Undisturbed(me, a, b) && Undisturbed(me, b, c)
    ensures Undisturbed(me, a, c)
  {
    if me == RetentionActor {
      forall cutoff | cutoff <= a.now ensures FewerEligible(a, c, cutoff) {
        assert FewerEligible(a, b, cutoff) && FewerEligible(b, c, cutoff);
      }
    }
  }

  // ----- the world

  /** Steps taken after steps taken. */
  lemma Chain(before: seq<Label>, between: seq<Label>, after: seq<Label>, first: seq<Label>, second: seq<Label>)
    requires between == before + first && after == between + second
    ensures after == before + (first + second)
  {
  }

  /** Some partition's log holds a copy of the message. */
  predicate OnTopic(bus: Bus, m: Message) {
    exists k :: 0 <= k < |bus.partitions| && m in bus.partitions[k].log
  }

  lemma OnTopicStays(bus: Bus, bus': Bus, m: Message)
    requires OnTopic(bus, m) && LogsGrow(bus, bus')
    ensures OnTopic(bus', m)
  {
    var k :| 0 <= k < |bus.partitions| && m in bus.partitions[k].log;
    assert bus.partitions[k].log <= bus'.partitions[k].log;
  }

  lemma AppendedOnTopic(bus: Bus, k: nat, m: Message, copies: nat)
    requires k < |bus.partitions| && copies >= 1
    ensures OnTopic(AppendTo(bus, k, m, copies), m)
  {
    var log := AppendTo(bus, k, m, copies).partitions[k].log;
    assert log[|log| - 1] == m;
  }

  /** A number the environment chooses. */
  method AnyNat() returns (n: nat) {
    var k: int := *;
    n := if k < 0 then -k else k;
  }

  class World {
    const cfg: Config
    const partitions: nat
    var st: State
    ghost var trace: seq<Label>

    constructor (cfg: Config, partitions: nat)
      ensures Valid() && trace == [] && this.cfg == cfg && this.partitions == partitions
    {
      this.cfg, this.partitions := cfg, partitions;
      st := Init(partitions);
      trace := [];
    }

    /** The state is the one its trace reaches. */
    ghost predicate Valid()
      reads this
    {
      st == Reached(cfg, partitions, trace)
    }

    method Perform(l: Label)
      requires Valid() && Enabled(cfg, st, l)
      modifies this
      ensures Valid() && trace == old(trace) + [l] && st == Apply(cfg, old(st), l)
    {
      assert (trace + [l])[..|trace|] == trace;
      st := Apply(cfg, st, l);
      trace := trace + [l];
    }

    /** Any number of steps of the other actors. */
    method Interfere(me: Actor)
      requires Valid()
      modifies this
      ensures Valid() && Own(trace, me) == Own(old(trace), me) && Undisturbed(me, old(st), st)
    {
      var n := AnyNat();
      while n > 0
        invariant Valid() && Own(trace, me) == Own(old(trace), me) && Undisturbed(me, old(st), st)
      {
        var l: Label := *;
        if Owner(l) != me && Enabled(cfg, st, l) {
          OwnSnoc(trace, l, me);
          StepUndisturbed(cfg, st, l, me);
          UndisturbedTransitive(me, old(st), st, Apply(cfg, st, l));
          Perform(l);
        }
        n := n - 1;
      }
    }

    /** One step of `me`, after any number of steps of the others. */
    method Act(me: Actor, l: Label)
      requires Valid() && Enabled(cfg, st, l) && Owner(l) == me
      modifies this
      ensures Valid() && st == Apply(cfg, old(st), l) && trace == old(trace) + [l]
      ensures Own(trace, me) == Own(old(trace), me) + [l]
    {
      OwnSnoc(trace, l, me);
      Perform(l);
    }
  }
}
