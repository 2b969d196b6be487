/** `KsmAgentBus` (keeper_sdk/secrets/bus.py): a lease lock with a payload slot, kept in
    three labelled fields of one record per slot. */
module AgentBus {
  import opened Json
  import opened BusRecord
  import opened BusFormat

  const HOLDER := "_bus_holder"
  const EXPIRY := "_bus_expiry"
  const PAYLOAD := "_bus_payload"
  const SLOT_FIELDS: set<string> := {HOLDER, EXPIRY, PAYLOAD}

  /** The triple the record stands for. */
  datatype Slot = Slot(holder: Option<string>, expiry: Option<string>, payload: Option<string>)

  function View(custom: seq<Entry>): Slot {
    Slot(FieldText(custom, HOLDER), FieldText(custom, EXPIRY), FieldText(custom, PAYLOAD))
  }

  /** `_slot_expired`: a missing, empty or unreadable expiry counts as expired. */
  predicate SlotExpired(c: Codec, expiry: Option<string>, now: int) {
    match expiry
    case None => true
    case Some(text) =>
      text == "" || match c.parse(text) { case None => true case Some(t) => t <= now }
  }

  predicate HeldBy(c: Codec, v: Slot, holder: string, now: int) {
    v.holder == Some(holder) && !SlotExpired(c, v.expiry, now)
  }

  /** A slot is free for `holder` when it is empty, expired or already its own. */
  predicate FreeFor(c: Codec, v: Slot, holder: string, now: int) {
    v.holder == None || v.holder == Some("") || v.holder == Some(holder) || SlotExpired(c, v.expiry, now)
  }

  datatype Lease = Lease(holder: string, ttl: int)

  function Acquired(c: Codec, custom: seq<Entry>, holder: string, until: int): seq<Entry> {
    SetField(SetField(custom, HOLDER, holder), EXPIRY, c.format(until))
  }

  function Renewed(c: Codec, custom: seq<Entry>, until: int): seq<Entry> {
    SetField(custom, EXPIRY, c.format(until))
  }

  function Stored(c: Codec, custom: seq<Entry>, payload: Dict): seq<Entry> {
    SetField(custom, PAYLOAD, c.dumps(JObj(payload)))
  }

  function Cleared(custom: seq<Entry>): seq<Entry> {
    RemoveFields(custom, SLOT_FIELDS)
  }

  // ------------------------------------------------ the list refines the slot triple

  lemma LabelsDiffer()
    ensures HOLDER != EXPIRY && HOLDER != PAYLOAD && EXPIRY != PAYLOAD
  {
    assert HOLDER[5] == 'h' && EXPIRY[5] == 'e' && PAYLOAD[5] == 'p';
  }

  lemma SetFieldText(custom: seq<Entry>, key: string, text: string, other: string)
    ensures FieldText(SetField(custom, key, text), other) == if other == key then Some(text) else FieldText(custom, other)
  {
    SetFieldIsMapUpdate(custom, key, text, other);
  }

  lemma ViewOfSet(custom: seq<Entry>, key: string, text: string)
    ensures var v, w := View(custom), View(SetField(custom, key, text));
            && w.holder == (if key == HOLDER then Some(text) else v.holder)
            && w.expiry == (if key == EXPIRY then Some(text) else v.expiry)
            && w.payload == (if key == PAYLOAD then Some(text) else v.payload)
  {
    SetFieldText(custom, key, text, HOLDER);
    SetFieldText(custom, key, text, EXPIRY);
    SetFieldText(custom, key, text, PAYLOAD);
  }

  lemma ViewOfAcquired(c: Codec, custom: seq<Entry>, holder: string, until: int)
    ensures View(Acquired(c, custom, holder, until)) == View(custom).(holder := Some(holder), expiry := Some(c.format(until)))
  {
    LabelsDiffer();
    ViewOfSet(custom, HOLDER, holder);
    ViewOfSet(SetField(custom, HOLDER, holder), EXPIRY, c.format(until));
  }

  lemma ViewOfRenewed(c: Codec, custom: seq<Entry>, until: int)
    ensures View(Renewed(c, custom, until)) == View(custom).(expiry := Some(c.format(until)))
  {
    LabelsDiffer();
    ViewOfSet(custom, EXPIRY, c.format(until));
  }

  lemma ViewOfStored(c: Codec, custom: seq<Entry>, payload: Dict)
    ensures View(Stored(c, custom, payload)) == View(custom).(payload := Some(c.dumps(JObj(payload))))
  {
    LabelsDiffer();
    ViewOfSet(custom, PAYLOAD, c.dumps(JObj(payload)));
  }

  lemma ViewOfCleared(custom: seq<Entry>)
    ensures View(Cleared(custom)) == Slot(None, None, None)
  {
    RemoveFieldsIsMapRemoval(custom, SLOT_FIELDS, HOLDER);
    RemoveFieldsIsMapRemoval(custom, SLOT_FIELDS, EXPIRY);
    RemoveFieldsIsMapRemoval(custom, SLOT_FIELDS, PAYLOAD);
  }

  /** No operation touches a field that is not the slot's. */
  lemma OtherLabelsUntouched(c: Codec, custom: seq<Entry>, key: string, holder: string, until: int, payload: Dict)
    requires key !in SLOT_FIELDS
    ensures Lookup(Acquired(c, custom, holder, until), key) == Lookup(custom, key)
    ensures Lookup(Renewed(c, custom, until), key) == Lookup(custom, key)
    ensures Lookup(Stored(c, custom, payload), key) == Lookup(custom, key)
    ensures Lookup(Cleared(custom), key) == Lookup(custom, key)
  {
    SetFieldIsMapUpdate(custom, HOLDER, holder, key);
    SetFieldIsMapUpdate(SetField(custom, HOLDER, holder), EXPIRY, c.format(until), key);
    SetFieldIsMapUpdate(custom, EXPIRY, c.format(until), key);
    SetFieldIsMapUpdate(custom, PAYLOAD, c.dumps(JObj(payload)), key);
    RemoveFieldsIsMapRemoval(custom, SLOT_FIELDS, key);
  }

  // ------------------------------------------------------------------- the operations

  datatype Consumed = Empty | Payload(value: Dict) | Unreadable

  /** What `consume` makes of the payload text. */
  function ReadPayload(c: Codec, text: Option<string>): Consumed {
    match text
    case None => Empty
    case Some(raw) =>
      match c.loads(raw)
      case Some(JObj(d)) => Payload(d)
      case _ => Unreadable
  }

  /** `MockBusStore`: reading an unknown slot creates its record. */
  class Store {
    var records: map<string, seq<Entry>>

    constructor ()
      ensures records == map[]
    {
      records := map[];
    }

    function Custom(slot: string): seq<Entry>
      reads this
    {
      if slot in records then records[slot] else []
    }

    method GetRecord(slot: string) returns (custom: seq<Entry>)
      modifies this
      ensures custom == old(Custom(slot))
      ensures records == old(records)[slot := custom]
    {
      if slot !in records {
        records := records[slot := []];
      }
      custom := records[slot];
    }

    method Save(slot: string, custom: seq<Entry>)
      modifies this
      ensures records == old(records)[slot := custom]
    {
      records := records[slot := custom];
    }
  }

  /** Slot names and holders are non-empty; the source raises ValueError otherwise, which
      is the outcome `None` here. */
  class KsmAgentBus {
    const codec: Codec
    const store: Store
    var leases: map<string, Lease>

    constructor (codec: Codec, store: Store)
      ensures this.codec == codec && this.store == store && leases == map[]
    {
      this.codec := codec;
      this.store := store;
      leases := map[];
    }

    method Acquire(slot: string, holder: string, ttl: int, now: int) returns (r: Option<bool>)
      modifies this`leases, store
      ensures r.None? <==> slot == "" || holder == ""
      ensures r.None? ==> store.records == old(store.records) && leases == old(leases)
      ensures r.Some? ==>
        var custom := old(store.Custom(slot));
        && r.value == FreeFor(codec, View(custom), holder, now)
        && store.records == old(store.records)[slot := if r.value then Acquired(codec, custom, holder, now + ttl) else custom]
        && leases == if r.value then old(leases)[slot := Lease(holder, ttl)] else old(leases)
    {
      if slot == "" || holder == "" { return None; }
      var custom := store.GetRecord(slot);
      var current := FieldText(custom, HOLDER);
      var expiry := FieldText(custom, EXPIRY);
      if current.Some? && current.value != "" && current.value != holder && !SlotExpired(codec, expiry, now) {
        return Some(false);
      }
      custom := SetField(custom, HOLDER, holder);
      custom := SetField(custom, EXPIRY, codec.format(now + ttl));
      store.Save(slot, custom);
      leases := leases[slot := Lease(holder, ttl)];
      return Some(true);
    }

    method Release(slot: string, holder: string) returns (r: Option<bool>)
      modifies this`leases, store
      ensures r.None? <==> slot == "" || holder == ""
      ensures r.None? ==> store.records == old(store.records) && leases == old(leases)
      ensures r.Some? ==>
        var custom := old(store.Custom(slot));
        && r.value == (View(custom).holder == Some(holder))
        && store.records == old(store.records)[slot := if r.value then Cleared(custom) else custom]
        && leases == if r.value && slot in old(leases) && old(leases)[slot].holder == holder
                     then old(leases) - {slot} else old(leases)
    {
      if slot == "" || holder == "" { return None; }
      var custom := store.GetRecord(slot);
      if FieldText(custom, HOLDER) != Some(holder) {
        return Some(false);
      }
      store.Save(slot, RemoveFields(custom, SLOT_FIELDS));
      if slot in leases && leases[slot].holder == holder {
        leases := leases - {slot};
      }
      return Some(true);
    }

    /** `Some(false)` is the source's PermissionError. */
    method Publish(slot: string, payload: Dict, holder: string, now: int) returns (r: Option<bool>)
      modifies this`leases, store
      ensures r.None? <==> slot == "" || holder == ""
      ensures r.None? ==> store.records == old(store.records) && leases == old(leases)
      ensures r.Some? ==>
        var custom := old(store.Custom(slot));
        && r.value == HeldBy(codec, View(custom), holder, now)
        && store.records == old(store.records)[slot := if r.value then Stored(codec, custom, payload) else custom]
        && leases == if !r.value && slot in old(leases) && old(leases)[slot].holder == holder
                     then old(leases) - {slot} else old(leases)
    {
      if slot == "" || holder == "" { return None; }
      var custom := store.GetRecord(slot);
      if FieldText(custom, HOLDER) != Some(holder) || SlotExpired(codec, FieldText(custom, EXPIRY), now) {
        if slot in leases && leases[slot].holder == holder {
          leases := leases - {slot};
        }
        return Some(false);
      }
      store.Save(slot, SetField(custom, PAYLOAD, codec.dumps(JObj(payload))));
      return Some(true);
    }

    method Consume(slot: string) returns (r: Option<Consumed>)
      modifies this`leases, store
      ensures r.None? <==> slot == ""
      ensures r.None? ==> store.records == old(store.records) && leases == old(leases)
      ensures r.Some? ==>
        var custom := old(store.Custom(slot));
        && r.value == ReadPayload(codec, View(custom).payload)
        && store.records == old(store.records)[slot := if r.value.Payload? then Cleared(custom) else custom]
        && leases == if r.value.Payload? then old(leases) - {slot} else old(leases)
    {
      if slot == "" { return None; }
      var custom := store.GetRecord(slot);
      var result := ReadPayload(codec, FieldText(custom, PAYLOAD));
      if result.Payload? {
        store.Save(slot, RemoveFields(custom, SLOT_FIELDS));
        leases := leases - {slot};
      }
      return Some(result);
    }

    /** A ping without a lease of this instance does not even look at the slot. */
    method Ping(slot: string, now: int) returns (ok: bool)
      requires slot in leases ==> slot != ""
      modifies this`leases, store
      ensures slot !in old(leases) ==> !ok && store.records == old(store.records) && leases == old(leases)
      ensures slot in old(leases) ==>
        var custom := old(store.Custom(slot));
        var lease := old(leases)[slot];
        && ok == HeldBy(codec, View(custom), lease.holder, now)
        && store.records == old(store.records)[slot := if ok then Renewed(codec, custom, now + lease.ttl) else custom]
        && leases == if ok then old(leases) else old(leases) - {slot}
    {
      if slot !in leases { return false; }
      var lease := leases[slot];
      var custom := store.GetRecord(slot);
      if FieldText(custom, HOLDER) != Some(lease.holder) || SlotExpired(codec, FieldText(custom, EXPIRY), now) {
        leases := leases - {slot};
        return false;
      }
      store.Save(slot, SetField(custom, EXPIRY, codec.format(now + lease.ttl)));
      return true;
    }
  }
}

/** Runs of any number of `KsmAgentBus` instances over one slot, with a clock that never
    goes back.  Writers of other labels may touch the record at any time.  The field
    list is refined to the holder/expiry/payload triple first; the guarantees are then
    proved of the triple and carried back. */
module AgentBusRuns {
  import opened Json
  import opened BusRecord
  import opened BusFormat
  import opened AgentBus

  datatype Event =
    | Acquire(bus: nat, who: string, ttl: int)
    | Release(bus: nat, who: string)
    | Publish(bus: nat, what: Dict, who: string)
    | Consume(bus: nat)
    | Ping(bus: nat)
    | Elsewhere(key: string, text: string)
    | Tick(dt: nat)

  datatype State = State(slot: Slot, leases: map<nat, Lease>, clock: int)

  /** Whether the call the event stands for succeeds. */
  predicate Succeeds(c: Codec, s: State, e: Event) {
    match e
    case Acquire(_, who, _) => who != "" && FreeFor(c, s.slot, who, s.clock)
    case Release(_, who) => who != "" && s.slot.holder == Some(who)
    case Publish(_, _, who) => who != "" && HeldBy(c, s.slot, who, s.clock)
    case Consume(_) => ReadPayload(c, s.slot.payload).Payload?
    case Ping(b) => b in s.leases && HeldBy(c, s.slot, s.leases[b].holder, s.clock)
    case Elsewhere(key, _) => key !in SLOT_FIELDS
    case Tick(_) => true
  }

  function LeasesAfter(c: Codec, s: State, e: Event): map<nat, Lease> {
    var ok := Succeeds(c, s, e);
    match e
    case Acquire(b, who, ttl) => if ok then s.leases[b := Lease(who, ttl)] else s.leases
    case Release(b, who) => if ok && b in s.leases && s.leases[b].holder == who then s.leases - {b} else s.leases
    case Publish(b, _, who) => if !ok && who != "" && b in s.leases && s.leases[b].holder == who then s.leases - {b} else s.leases
    case Consume(b) => if ok then s.leases - {b} else s.leases
    case Ping(b) => if ok then s.leases else s.leases - {b}
    case _ => s.leases
  }

  /** The edit an event makes to the slot. */
  datatype Edit = Keep | Take(who: string, until: int) | Renew(until: int) | Store(what: Dict) | Clear | Other(key: string, text: string)

  function EditOf(c: Codec, s: State, e: Event): Edit {
    if !Succeeds(c, s, e) then Keep
    else
      match e
      case Acquire(_, who, ttl) => Take(who, s.clock + ttl)
      case Release(_, _) => Clear
      case Publish(_, what, _) => Store(what)
      case Consume(_) => Clear
      case Ping(b) => Renew(s.clock + s.leases[b].ttl)
      case Elsewhere(key, text) => Other(key, text)
      case Tick(_) => Keep
  }

  function EditSlot(c: Codec, slot: Slot, edit: Edit): Slot {
    match edit
    case Take(who, until) => slot.(holder := Some(who), expiry := Some(c.format(until)))
    case Renew(until) => slot.(expiry := Some(c.format(until)))
    case Store(what) => slot.(payload := Some(c.dumps(JObj(what))))
    case Clear => Slot(None, None, None)
    case _ => slot
  }

  function Next(c: Codec, s: State, e: Event): State {
    State(EditSlot(c, s.slot, EditOf(c, s, e)), LeasesAfter(c, s, e), if e.Tick? then s.clock + e.dt else s.clock)
  }

  /** The state before event `n`. */
  function At(c: Codec, s: State, events: seq<Event>, n: nat): State
    requires n <= |events|
  {
    if n == 0 then s else Next(c, At(c, s, events, n - 1), events[n - 1])
  }

  predicate DoneAt(c: Codec, s: State, events: seq<Event>, n: nat) {
    n < |events| && Succeeds(c, At(c, s, events, n), events[n])
  }

  // --------------------------------------------------- the field list refines the triple

  datatype RecordState = RecordState(custom: seq<Entry>, leases: map<nat, Lease>, clock: int)

  function Abs(r: RecordState): State {
    State(View(r.custom), r.leases, r.clock)
  }

  /** What the operations of `KsmAgentBus` do to the field list. */
  function EditRecord(c: Codec, custom: seq<Entry>, edit: Edit): seq<Entry> {
    match edit
    case Keep => custom
    case Take(who, until) => Acquired(c, custom, who, until)
    case Renew(until) => Renewed(c, custom, until)
    case Store(what) => Stored(c, custom, what)
    case Clear => Cleared(custom)
    case Other(key, text) => SetField(custom, key, text)
  }

  function NextRecord(c: Codec, r: RecordState, e: Event): RecordState {
    var s := Abs(r);
    RecordState(EditRecord(c, r.custom, EditOf(c, s, e)), LeasesAfter(c, s, e), if e.Tick? then r.clock + e.dt else r.clock)
  }

  function RecordAt(c: Codec, r: RecordState, events: seq<Event>, n: nat): RecordState
    requires n <= |events|
  {
    if n == 0 then r else NextRecord(c, RecordAt(c, r, events, n - 1), events[n - 1])
  }

  lemma EditRefines(c: Codec, custom: seq<Entry>, edit: Edit)
    requires edit.Other? ==> edit.key !in SLOT_FIELDS
    ensures View(EditRecord(c, custom, edit)) == EditSlot(c, View(custom), edit)
  {
    match edit {
      case Keep =>
      case Take(who, until) => ViewOfAcquired(c, custom, who, until);
      case Renew(until) => ViewOfRenewed(c, custom, until);
      case Store(what) => ViewOfStored(c, custom, what);
      case Clear => ViewOfCleared(custom);
      case Other(key, text) => ViewOfSet(custom, key, text);
    }
  }

  lemma StepRefines(c: Codec, r: RecordState, e: Event)
    ensures Abs(NextRecord(c, r, e)) == Next(c, Abs(r), e)
  {
    EditRefines(c, r.custom, EditOf(c, Abs(r), e));
  }

  lemma NoStep(c: Codec, r: RecordState, events: seq<Event>)
    ensures RecordAt(c, r, events, 0) == r && At(c, Abs(r), events, 0) == Abs(r)
  {}

  lemma LastStep(c: Codec, r: RecordState, events: seq<Event>, n: nat)
    requires 0 < n <= |events|
    ensures RecordAt(c, r, events, n) == NextRecord(c, RecordAt(c, r, events, n - 1), events[n - 1])
    ensures At(c, Abs(r), events, n) == Next(c, At(c, Abs(r), events, n - 1), events[n - 1])
  {}

  lemma OneMoreStep(c: Codec, r: RecordState, events: seq<Event>, n: nat)
    requires 0 < n <= |events| && Abs(RecordAt(c, r, events, n - 1)) == At(c, Abs(r), events, n - 1)
    ensures Abs(RecordAt(c, r, events, n)) == At(c, Abs(r), events, n)
  {
    hide *;
    LastStep(c, r, events, n);
    StepRefines(c, RecordAt(c, r, events, n - 1), events[n - 1]);
  }

  /** Every run on the record is a run on the triple. */
  lemma {:induction false} RunRefines(c: Codec, r: RecordState, events: seq<Event>, n: nat)
    requires n <= |events|
    ensures Abs(RecordAt(c, r, events, n)) == At(c, Abs(r), events, n)
  {
    hide *;
    if n == 0 {
      NoStep(c, r, events);
    } else {
      RunRefines(c, r, events, n - 1);
      OneMoreStep(c, r, events, n);
    }
  }

  // ----------------------------------------------------------------- lease exclusion

  /** The events that may end `who`'s tenure: its release, a consume, or a take-over
      at a moment when its recorded expiry has passed. */
  ghost predicate Ends(c: Codec, s: State, events: seq<Event>, who: string, k: nat) {
    && DoneAt(c, s, events, k)
    && var before := At(c, s, events, k);
       match events[k]
       case Release(_, w) => w == who
       case Consume(_) => true
       case Acquire(_, w, _) => w != who && before.slot.holder == Some(who)
                                && SlotExpired(c, before.slot.expiry, before.clock)
       case _ => false
  }

  lemma {:induction false} HolderStays(c: Codec, s: State, events: seq<Event>, who: string, i: nat, j: nat)
    requires who != "" && i <= j <= |events|
    requires At(c, s, events, i).slot.holder == Some(who)
    requires forall k | i <= k < j :: !Ends(c, s, events, who, k)
    ensures At(c, s, events, j).slot.holder == Some(who)
  {
    if i < j {
      HolderStays(c, s, events, who, i, j - 1);
      assert !Ends(c, s, events, who, j - 1);
    }
  }

  /** Between successful publishes of two different holders, the first one's lease ended:
      it released the slot, the slot was consumed, or its recorded expiry had passed. */
  lemma LeaseExclusion(c: Codec, s: State, events: seq<Event>, i: nat, j: nat)
    requires i < j < |events| && events[i].Publish? && events[j].Publish?
    requires DoneAt(c, s, events, i) && DoneAt(c, s, events, j)
    requires events[i].who != events[j].who
    ensures exists k :: i < k < j && Ends(c, s, events, events[i].who, k)
  {
    var who := events[i].who;
    assert At(c, s, events, i + 1).slot.holder == Some(who);
    if forall k | i + 1 <= k < j :: !Ends(c, s, events, who, k) {
      HolderStays(c, s, events, who, i + 1, j);
    }
  }

  /** A ping never changes the holder or the payload, and it never revives a lease that
      is lost or expired: then the record is left alone and the instance forgets it. */
  lemma PingIsHarmless(c: Codec, s: State, b: nat)
    ensures var t := Next(c, s, Ping(b));
            && t.slot.holder == s.slot.holder
            && t.slot.payload == s.slot.payload
            && (b in s.leases && !HeldBy(c, s.slot, s.leases[b].holder, s.clock) ==>
                  t.slot == s.slot && b !in t.leases)
            && (b !in s.leases ==> t == s)
  {
  }

  /** Right after a successful acquire the holder can publish, whatever it had to wait
      for; nobody else can, for as long as the clock stays below the expiry. */
  lemma AcquireGrants(c: Codec, s: State, b: nat, who: string, ttl: int, other: string, now: int)
    requires Faithful(c)
    requires Succeeds(c, s, Acquire(b, who, ttl)) && other != who
    ensures var v := Next(c, s, Acquire(b, who, ttl)).slot;
            && (HeldBy(c, v, who, now) <==> now < s.clock + ttl)
            && !HeldBy(c, v, other, now)
            && (other != "" ==> (FreeFor(c, v, other, now) <==> s.clock + ttl <= now))
  {
    assert c.parse(c.format(s.clock + ttl)) == Some(s.clock + ttl);
  }

  // -------------------------------------------------------------- at-most-once payloads

  /** The publish whose payload is waiting before event `n`. */
  function Pending(c: Codec, s: State, events: seq<Event>, n: nat): (p: Option<nat>)
    requires n <= |events|
    ensures p.Some? ==> p.value < n && events[p.value].Publish? && DoneAt(c, s, events, p.value)
  {
    if n == 0 then None
    else if !DoneAt(c, s, events, n - 1) then Pending(c, s, events, n - 1)
    else
      match events[n - 1]
      case Publish(_, _, _) => Some(n - 1)
      case Release(_, _) => None
      case Consume(_) => None
      case _ => Pending(c, s, events, n - 1)
  }

  lemma {:induction false} SlotHoldsPending(c: Codec, s: State, events: seq<Event>, n: nat)
    requires n <= |events| && s.slot.payload == None
    ensures At(c, s, events, n).slot.payload
         == match Pending(c, s, events, n) {
              case None => None
              case Some(p) => Some(c.dumps(JObj(events[p].what))) }
  {
    if n > 0 {
      SlotHoldsPending(c, s, events, n - 1);
    }
  }

  /** A consume returns the payload of the latest publish since the slot was last cleared,
      and it fails exactly when there is none. */
  lemma ConsumeReturnsPending(c: Codec, s: State, events: seq<Event>, n: nat)
    requires Faithful(c) && s.slot.payload == None
    requires n < |events| && events[n].Consume?
    ensures ReadPayload(c, At(c, s, events, n).slot.payload)
         == match Pending(c, s, events, n) {
              case None => Empty
              case Some(p) => Payload(events[p].what) }
    ensures DoneAt(c, s, events, n) <==> Pending(c, s, events, n).Some?
  {
    SlotHoldsPending(c, s, events, n);
    var p := Pending(c, s, events, n);
    if p.Some? {
      var doc := JObj(events[p.value].what);
      assert c.loads(c.dumps(doc)) == Some(doc);
    }
  }

  lemma {:induction false} PendingIsLater(c: Codec, s: State, events: seq<Event>, k: nat, n: nat)
    requires k < n <= |events| && events[k].Consume? && DoneAt(c, s, events, k)
    ensures Pending(c, s, events, n).Some? ==> Pending(c, s, events, n).value > k
  {
    if n > k + 1 {
      PendingIsLater(c, s, events, k, n - 1);
    }
  }

  /** No published payload is returned twice: two successful consumes return the payloads
      of two different publishes, the later consume that of the later publish. */
  lemma DeliveredAtMostOnce(c: Codec, s: State, events: seq<Event>, k: nat, n: nat)
    requires Faithful(c) && s.slot.payload == None
    requires k < n < |events| && events[k].Consume? && events[n].Consume?
    requires DoneAt(c, s, events, k) && DoneAt(c, s, events, n)
    ensures var first, second := Pending(c, s, events, k), Pending(c, s, events, n);
            first.Some? && second.Some? && first.value < k < second.value < n
  {
    ConsumeReturnsPending(c, s, events, k);
    ConsumeReturnsPending(c, s, events, n);
    PendingIsLater(c, s, events, k, n);
  }

  /** The same on the record itself, whatever else it holds. */
  lemma RecordLeaseExclusion(c: Codec, r: RecordState, events: seq<Event>, i: nat, j: nat)
    requires i < j < |events| && events[i].Publish? && events[j].Publish?
    requires Succeeds(c, Abs(RecordAt(c, r, events, i)), events[i])
    requires Succeeds(c, Abs(RecordAt(c, r, events, j)), events[j])
    requires events[i].who != events[j].who
    ensures exists k :: i < k < j && Ends(c, Abs(r), events, events[i].who, k)
                        && Abs(RecordAt(c, r, events, k)) == At(c, Abs(r), events, k)
  {
    RunRefines(c, r, events, i);
    RunRefines(c, r, events, j);
    LeaseExclusion(c, Abs(r), events, i, j);
    var k :| i < k < j && Ends(c, Abs(r), events, events[i].who, k);
    RunRefines(c, r, events, k);
  }
}
