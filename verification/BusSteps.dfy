/** The method calls of the bus classes are the steps that the runs are made of
    (keeper_sdk/secrets/bus.py). */
module BusSteps {
  import opened BusFormat
  import opened KsmBus
  import ChannelRuns

  // ------------------------------------------------------------------------- channels

  /** One round of a publishing call as steps of client `c`: read, whatever the others
      write, compare-and-swap.  Reading a malformed channel ends the call. */
  function TrySteps(f: Format, key: string, s: ChannelRuns.State, c: nat, t: Try): ChannelRuns.State {
    var read := ChannelRuns.Next(f, key, s.(clock := t.now), ChannelRuns.LoadForPost(c));
    if !ChannelRuns.ClientAt(read, c).Ready? then read
    else ChannelRuns.Next(f, key, read.(custom := PublishedAll(f, read.custom, t.others)), ChannelRuns.CasPost(c, t.suffix))
  }

  /** The rounds of a call, for as long as the client tries. */
  function CallSteps(f: Format, key: string, s: ChannelRuns.State, c: nat, tries: seq<Try>): ChannelRuns.State
    decreases |tries|
  {
    if tries == [] || !ChannelRuns.ClientAt(s, c).Trying? then s
    else CallSteps(f, key, TrySteps(f, key, s, c, tries[0]), c, tries[1..])
  }

  lemma PostKeyIs(f: Format, key: string, d: Draft, loaded: Loaded, t: Try)
    requires loaded.Channel?
    ensures PostWrite(f, key, d, loaded, t).key == key
    ensures PostWrite(f, key, d, loaded, t) == PostWrite(f, key, d, loaded, Try([], t.suffix, t.now))
  {}

  /** A round does to the record what `Once` does, and the client tries again exactly when
      it lost with tries left. */
  lemma TryIsOnce(f: Format, key: string, s: ChannelRuns.State, c: nat, t: Try)
    requires key != "" && ChannelRuns.ClientAt(s, c).Trying?
    ensures var client := s.clients[c];
            var (r, end) := Once(f, key, client.draft, s.custom, t);
            var next := TrySteps(f, key, s, c, t);
            && next.custom == end
            && (ChannelRuns.ClientAt(next, c).Trying? <==> r.Exhausted? && client.triesLeft > 1)
            && (ChannelRuns.ClientAt(next, c).Trying? ==>
                  next.clients[c].triesLeft == client.triesLeft - 1 && next.clients[c].draft == client.draft)
  {
    hide PublishedAll, Message, MessageId, Load;
    var client := s.clients[c];
    var loaded := Load(f, s.custom, key);
    var read := ChannelRuns.Next(f, key, s.(clock := t.now), ChannelRuns.LoadForPost(c));
    if loaded.Channel? {
      assert read.clients[c]
          == ChannelRuns.Ready(client.draft, loaded.messages, loaded.version, t.now, client.triesLeft, client.started, client.beaten);
      assert Channel(loaded.messages, loaded.version) == loaded;
      PostKeyIs(f, key, client.draft, loaded, t);
    }
  }

  /** `BusClient.Post` is such a run of its client's steps: it leaves the record as they do. */
  lemma {:induction false} CallIsSteps(f: Format, key: string, s: ChannelRuns.State, c: nat, tries: seq<Try>)
    requires key != "" && tries != []
    requires ChannelRuns.ClientAt(s, c).Trying? && s.clients[c].triesLeft == |tries|
    ensures CallSteps(f, key, s, c, tries).custom == Call(f, key, s.clients[c].draft, s.custom, tries).1
    decreases |tries|
  {
    hide TrySteps, Once;
    var next := TrySteps(f, key, s, c, tries[0]);
    TryIsOnce(f, key, s, c, tries[0]);
    if ChannelRuns.ClientAt(next, c).Trying? {
      CallIsSteps(f, key, next, c, tries[1..]);
    }
  }

  /** `BusClient.Gc` as steps of client `c`. */
  function GcSteps(f: Format, key: string, s: ChannelRuns.State, c: nat, cutoff: int, others: seq<Write>, now: int): ChannelRuns.State {
    var read := ChannelRuns.Next(f, key, s, ChannelRuns.LoadForGc(c, cutoff));
    ChannelRuns.Next(f, key, read.(custom := PublishedAll(f, read.custom, others), clock := now), ChannelRuns.CasGc(c))
  }

  lemma GcIsSteps(f: Format, channel: string, s: ChannelRuns.State, c: nat, cutoff: int, others: seq<Write>, now: int)
    requires ChannelRuns.ClientAt(s, c).Idle? && Load(f, s.custom, ChannelKey(channel)).Channel?
    ensures var key := ChannelKey(channel);
            var loaded := Load(f, s.custom, key);
            var before := PublishedAll(f, s.custom, others);
            GcSteps(f, key, s, c, cutoff, others, now).custom
            == if |Kept(f, loaded.messages, cutoff)| == |loaded.messages| then before
               else Published(f, before, GcWrite(f, channel, loaded, cutoff, now))
  {
    hide PublishedAll, Load, ChannelKey, Kept;
  }
}

/** The calls of `KsmAgentBus` instances on one slot are the events of `AgentBusRuns`. */
module SlotSteps {
  import opened Json
  import opened BusRecord
  import opened BusFormat
  import opened AgentBus
  import opened AgentBusRuns

  /** The lease one instance keeps for the slot, next to those of the others. */
  function WithLease(others: map<nat, Lease>, b: nat, mine: Option<Lease>): map<nat, Lease> {
    if mine.Some? then others[b := mine.value] else others - {b}
  }

  function Mine(leases: map<string, Lease>, slot: string): Option<Lease> {
    if slot in leases then Some(leases[slot]) else None
  }

  /** What the runs see of one instance, numbered `b`. */
  ghost function StateOf(bus: KsmAgentBus, b: nat, others: map<nat, Lease>, slot: string, now: int): RecordState
    reads bus, bus.store
  {
    RecordState(bus.store.Custom(slot), WithLease(others, b, Mine(bus.leases, slot)), now)
  }

  /** Records of other slots. */
  twostate predicate OtherSlotsKept(store: Store, slot: string)
    reads store
  {
    forall s :: s != slot ==> store.Custom(s) == old(store.Custom(s))
  }

  lemma AcquireRecord(c: Codec, custom: seq<Entry>, others: map<nat, Lease>, b: nat, mine: Option<Lease>, who: string, ttl: int, now: int)
    ensures var ok := who != "" && FreeFor(c, View(custom), who, now);
            NextRecord(c, RecordState(custom, WithLease(others, b, mine), now), Acquire(b, who, ttl))
            == RecordState(if ok then Acquired(c, custom, who, now + ttl) else custom,
                           WithLease(others, b, if ok then Some(Lease(who, ttl)) else mine), now)
  {
    hide FreeFor, Acquired, View;
  }

  lemma ReleaseRecord(c: Codec, custom: seq<Entry>, others: map<nat, Lease>, b: nat, mine: Option<Lease>, who: string, now: int)
    ensures var ok := who != "" && View(custom).holder == Some(who);
            NextRecord(c, RecordState(custom, WithLease(others, b, mine), now), Release(b, who))
            == RecordState(if ok then Cleared(custom) else custom,
                           WithLease(others, b, if ok && mine.Some? && mine.value.holder == who then None else mine), now)
  {
    hide Cleared, View;
  }

  lemma PublishRecord(c: Codec, custom: seq<Entry>, others: map<nat, Lease>, b: nat, mine: Option<Lease>, what: Dict, who: string, now: int)
    ensures var ok := who != "" && HeldBy(c, View(custom), who, now);
            NextRecord(c, RecordState(custom, WithLease(others, b, mine), now), Publish(b, what, who))
            == RecordState(if ok then Stored(c, custom, what) else custom,
                           WithLease(others, b, if !ok && who != "" && mine.Some? && mine.value.holder == who then None else mine), now)
  {
    hide HeldBy, Stored, View;
  }

  lemma ConsumeRecord(c: Codec, custom: seq<Entry>, others: map<nat, Lease>, b: nat, mine: Option<Lease>, now: int)
    ensures var ok := ReadPayload(c, View(custom).payload).Payload?;
            NextRecord(c, RecordState(custom, WithLease(others, b, mine), now), Consume(b))
            == RecordState(if ok then Cleared(custom) else custom, WithLease(others, b, if ok then None else mine), now)
  {
    hide ReadPayload, Cleared, View;
  }

  lemma PingRecord(c: Codec, custom: seq<Entry>, others: map<nat, Lease>, b: nat, mine: Option<Lease>, now: int)
    ensures var ok := mine.Some? && HeldBy(c, View(custom), mine.value.holder, now);
            NextRecord(c, RecordState(custom, WithLease(others, b, mine), now), Ping(b))
            == RecordState(if ok then Renewed(c, custom, now + mine.value.ttl) else custom,
                           WithLease(others, b, if ok then mine else None), now)
  {
    hide HeldBy, Renewed, View;
  }

  method AcquireIsStep(bus: KsmAgentBus, b: nat, ghost others: map<nat, Lease>, slot: string, who: string, ttl: int, now: int)
    returns (r: Option<bool>)
    requires slot != ""
    modifies bus`leases, bus.store
    ensures StateOf(bus, b, others, slot, now) == NextRecord(bus.codec, old(StateOf(bus, b, others, slot, now)), Acquire(b, who, ttl))
    ensures OtherSlotsKept(bus.store, slot)
  {
    hide NextRecord, FreeFor, Acquired, View, WithLease;
    AcquireRecord(bus.codec, bus.store.Custom(slot), others, b, Mine(bus.leases, slot), who, ttl, now);
    r := bus.Acquire(slot, who, ttl, now);
  }

  method ReleaseIsStep(bus: KsmAgentBus, b: nat, ghost others: map<nat, Lease>, slot: string, who: string, ghost now: int)
    returns (r: Option<bool>)
    requires slot != ""
    modifies bus`leases, bus.store
    ensures StateOf(bus, b, others, slot, now) == NextRecord(bus.codec, old(StateOf(bus, b, others, slot, now)), Release(b, who))
    ensures OtherSlotsKept(bus.store, slot)
  {
    hide NextRecord, Cleared, View, WithLease;
    ReleaseRecord(bus.codec, bus.store.Custom(slot), others, b, Mine(bus.leases, slot), who, now);
    r := bus.Release(slot, who);
  }

  method PublishIsStep(bus: KsmAgentBus, b: nat, ghost others: map<nat, Lease>, slot: string, what: Dict, who: string, now: int)
    returns (r: Option<bool>)
    requires slot != ""
    modifies bus`leases, bus.store
    ensures StateOf(bus, b, others, slot, now) == NextRecord(bus.codec, old(StateOf(bus, b, others, slot, now)), Publish(b, what, who))
    ensures OtherSlotsKept(bus.store, slot)
  {
    hide NextRecord, HeldBy, Stored, View, WithLease;
    PublishRecord(bus.codec, bus.store.Custom(slot), others, b, Mine(bus.leases, slot), what, who, now);
    r := bus.Publish(slot, what, who, now);
  }

  method ConsumeIsStep(bus: KsmAgentBus, b: nat, ghost others: map<nat, Lease>, slot: string, ghost now: int)
    returns (r: Option<Consumed>)
    requires slot != ""
    modifies bus`leases, bus.store
    ensures StateOf(bus, b, others, slot, now) == NextRecord(bus.codec, old(StateOf(bus, b, others, slot, now)), Consume(b))
    ensures OtherSlotsKept(bus.store, slot)
  {
    hide NextRecord, Cleared, View, WithLease, ReadPayload;
    ConsumeRecord(bus.codec, bus.store.Custom(slot), others, b, Mine(bus.leases, slot), now);
    r := bus.Consume(slot);
  }

  method PingIsStep(bus: KsmAgentBus, b: nat, ghost others: map<nat, Lease>, slot: string, now: int) returns (ok: bool)
    requires slot != ""
    modifies bus`leases, bus.store
    ensures StateOf(bus, b, others, slot, now) == NextRecord(bus.codec, old(StateOf(bus, b, others, slot, now)), Ping(b))
    ensures OtherSlotsKept(bus.store, slot)
  {
    hide NextRecord, HeldBy, Renewed, View, WithLease;
    PingRecord(bus.codec, bus.store.Custom(slot), others, b, Mine(bus.leases, slot), now);
    ok := bus.Ping(slot, now);
  }
}
