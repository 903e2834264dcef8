/** A published outbox row, even one retention has removed, has a copy on the topic with exactly its contents. */
module PublishEvidence {
  import opened Common
  import opened Messages
  import opened Wire
  import opened System
  import opened OutboxProtocol
  import opened Delivery

  /** The message announces the event: its key and value are the event's, and the first headers of the three names give
      its id, its type and the aggregate. */
  ghost predicate Announces(m: Message, topic: string, id: nat, e: Event) {
    && m.topic == topic && m.key == e.aggregateId && m.value == e.payload && First(m.headers, "event_id", Uuid(id))
    && First(m.headers, "event_type", e.eventType) && First(m.headers, "aggregate_type", Str("payment"))
  }

  ghost predicate AnnouncedAt(topic: string, bus: Bus, k: nat, i: nat, id: nat, e: Event) {
    k < |bus.partitions| && i < |bus.partitions[k].log| && Announces(bus.partitions[k].log[i], topic, id, e)
  }

  /** Some offset of some partition, committed or not, holds a message that announces the event. */
  ghost predicate Logged(topic: string, bus: Bus, id: nat, e: Event) {
    exists k: nat, i: nat :: AnnouncedAt(topic, bus, k, i, id, e)
  }

  lemma EventIsAnnounced(topic: string, c: Claim, trace: seq<Header>)
    ensures Announces(EventMessage(topic, c, trace), topic, c.id, c.event)
  {
    var headers := EventMessage(topic, c, trace).headers;
    assert FirstAt(headers, 0, "event_id", Uuid(c.id)) && FirstAt(headers, 1, "event_type", c.event.eventType);
    assert FirstAt(headers, 2, "aggregate_type", Str("payment"));
  }

  lemma LoggedStable(topic: string, bus: Bus, bus': Bus, id: nat, e: Event)
    requires LogsGrow(bus, bus') && Logged(topic, bus, id, e)
    ensures Logged(topic, bus', id, e)
  {
    var k: nat, i: nat :| AnnouncedAt(topic, bus, k, i, id, e);
    assert AnnouncedAt(topic, bus', k, i, id, e);
  }

  predicate WroteHead(p: Publisher) { p.queue != [] && p.wrote == Some(true) }

  ghost predicate Evidence(topic: string, s: State) {
    && (forall id :: id in s.box.events && !Unpublished(s.box, id) ==> Logged(topic, s.bus, id, s.box.events[id]))
    && (forall p :: p in s.box.publishers ==> WriteLogged(topic, s, s.box.publishers[p]))
  }

  ghost predicate WriteLogged(topic: string, s: State, p: Publisher) {
    WroteHead(p) ==> p.queue[0].id in s.box.events && Logged(topic, s.bus, p.queue[0].id, s.box.events[p.queue[0].id])
  }

  lemma WrittenIsLogged(cfg: Config, s: State, p: nat, call: PublisherCall)
    requires ContentOk(cfg.topic, s) && PublisherEnabled(s, p, call) && call.Write? && call.acked
    ensures var id := s.box.publishers[p].queue[0].id;
      id in s.box.events && Logged(cfg.topic, PublisherStep(cfg, s, p, call).bus, id, s.box.events[id])
  {
    assert QueueOk(s.box, s.box.publishers[p]);
    assert ClaimOk(s.box, s.box.publishers[p], 0);
    var c := s.box.publishers[p].queue[0];
    EventIsAnnounced(cfg.topic, c, call.trace);
    assert AnnouncedAt(cfg.topic, PublisherStep(cfg, s, p, call).bus, call.to, |s.bus.partitions[call.to].log|, c.id,
      s.box.events[c.id]);
  }

  lemma WriterLogged(cfg: Config, s: State, l: Label, p: nat)
    requires ContentOk(cfg.topic, s) && Evidence(cfg.topic, s) && Enabled(cfg, s, l)
    requires p in Apply(cfg, s, l).box.publishers
    ensures WriteLogged(cfg.topic, Apply(cfg, s, l), Apply(cfg, s, l).box.publishers[p])
  {
    var s' := Apply(cfg, s, l);
    EventsGrow(cfg, s, l);
    PublisherKept(cfg, s, l, p);
    if WroteHead(s'.box.publishers[p]) {
      var id := s.box.publishers[p].queue[0].id;
      if s.box.publishers[p] == s'.box.publishers[p] {
        assert WriteLogged(cfg.topic, s, s.box.publishers[p]);
        StepLogsGrow(cfg, s, l);
        LoggedStable(cfg.topic, s.bus, s'.bus, id, s.box.events[id]);
      } else {
        WrittenIsLogged(cfg, s, p, l.call);
      }
    }
  }

  lemma RowLogged(cfg: Config, s: State, l: Label, id: nat)
    requires ContentOk(cfg.topic, s) && Evidence(cfg.topic, s) && Enabled(cfg, s, l) && id in s.box.events &&
      !Unpublished(Apply(cfg, s, l).box, id)
    ensures Logged(cfg.topic, Apply(cfg, s, l).bus, id, s.box.events[id])
  {
    StepLogsGrow(cfg, s, l);
    if l.Publish? && l.publisher in s.box.publishers {
      assert QueueOk(s.box, s.box.publishers[l.publisher]);
      assert WriteLogged(cfg.topic, s, s.box.publishers[l.publisher]);
    }
    if Unpublished(s.box, id) { StaysUnpublished(cfg, s, l, id); }
    LoggedStable(cfg.topic, s.bus, Apply(cfg, s, l).bus, id, s.box.events[id]);
  }

  lemma StepEvidence(cfg: Config, s: State, l: Label)
    requires ContentOk(cfg.topic, s) && Evidence(cfg.topic, s)
    ensures Evidence(cfg.topic, Step(cfg, s, l))
  {
    if Enabled(cfg, s, l) {
      var s' := Apply(cfg, s, l);
      EventsGrow(cfg, s, l);
      forall id | id in s'.box.events && !Unpublished(s'.box, id)
        ensures Logged(cfg.topic, s'.bus, id, s'.box.events[id])
      {
        if id in s.box.events { RowLogged(cfg, s, l, id); } else { NewEventWaits(cfg, s, l, id); }
      }
      forall p | p in s'.box.publishers ensures WriteLogged(cfg.topic, s', s'.box.publishers[p]) {
        WriterLogged(cfg, s, l, p);
      }
    }
  }

  lemma {:induction false} ReachedEvidence(cfg: Config, partitions: nat, schedule: seq<Label>)
    ensures Evidence(cfg.topic, Reached(cfg, partitions, schedule))
  {
    if schedule != [] {
      var n := |schedule| - 1;
      ReachedEvidence(cfg, partitions, schedule[..n]);
      ReachedInv(cfg, partitions, schedule[..n]);
      StepEvidence(cfg, Reached(cfg, partitions, schedule[..n]), schedule[n]);
    }
  }

  /** Publish evidence: an event whose row is published or gone is announced on the topic; in particular nothing is
      marked published, or purged, without having been written. */
  lemma PublishedIsOnTopic(cfg: Config, partitions: nat, schedule: seq<Label>, id: nat)
    requires var b := Reached(cfg, partitions, schedule).box;
      id in b.events && (id !in b.rows || b.rows[id].status == Published)
    ensures var s := Reached(cfg, partitions, schedule);
      exists k, i :: 0 <= k < |s.bus.partitions| && 0 <= i < |s.bus.partitions[k].log| &&
        Announces(s.bus.partitions[k].log[i], cfg.topic, id, s.box.events[id])
  {
    var s := Reached(cfg, partitions, schedule);
    ReachedEvidence(cfg, partitions, schedule);
    assert !Unpublished(s.box, id);
    var k: nat, i: nat :| AnnouncedAt(cfg.topic, s.bus, k, i, id, s.box.events[id]);
  }
}
