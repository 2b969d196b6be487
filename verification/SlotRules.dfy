/** When the operations of an agent slot succeed (`KsmAgentBus`, keeper_sdk/secrets/bus.py),
    said of the texts the slot holds. */
module SlotRules {
  import opened Json
  import opened BusRecord
  import opened BusFormat
  import opened AgentBus
  import opened AgentBusRuns

  /** The recorded expiry can be read and lies ahead. */
  ghost predicate Runs(c: Codec, v: Slot, now: int) {
    exists text, until :: v.expiry == Some(text) && text != "" && c.parse(text) == Some(until) && now < until
  }

  /** Acquiring is refused exactly while somebody else's lease runs. */
  lemma RefusedIff(c: Codec, v: Slot, who: string, now: int)
    ensures !FreeFor(c, v, who, now) <==> Runs(c, v, now) && exists other :: v.holder == Some(other) && other !in {"", who}
  {
    match v.expiry {
      case None =>
      case Some(text) =>
        match c.parse(text) {
          case None =>
          case Some(until) =>
        }
    }
  }

  /** Publishing and pinging need a lease of one's own that runs. */
  lemma HeldIff(c: Codec, v: Slot, who: string, now: int)
    ensures HeldBy(c, v, who, now) <==> v.holder == Some(who) && Runs(c, v, now)
  {
    match v.expiry {
      case None =>
      case Some(text) =>
        match c.parse(text) {
          case None =>
          case Some(until) =>
        }
    }
  }

  /** A holder can always acquire again, whether or not its lease still runs. */
  lemma HolderReacquires(c: Codec, s: State, b: nat, who: string, ttl: int)
    requires who != "" && s.slot.holder == Some(who)
    ensures var t := Next(c, s, Acquire(b, who, ttl));
            && Succeeds(c, s, Acquire(b, who, ttl))
            && t.slot == Slot(Some(who), Some(c.format(s.clock + ttl)), s.slot.payload) && t.leases == s.leases[b := Lease(who, ttl)]
  {
    RefusedIff(c, s.slot, who, s.clock);
  }

  /** A payload is returned when the text is there and reads as an object. */
  lemma ReturnedIff(c: Codec, text: Option<string>)
    ensures ReadPayload(c, text) == Empty <==> text == None
    ensures forall d :: ReadPayload(c, text) == Payload(d) <==> text.Some? && c.loads(text.value) == Some(JObj(d))
  {}

  /** Which label of the record each part of the slot is kept under. */
  lemma SlotIsKept(custom: seq<Entry>)
    ensures View(custom) == Slot(FieldText(custom, "_bus_holder"), FieldText(custom, "_bus_expiry"), FieldText(custom, "_bus_payload"))
  {}

  /** Clearing a slot removes its three labels and nothing else. */
  lemma ClearedIs(custom: seq<Entry>, key: string)
    ensures FieldText(Cleared(custom), key) == if key in {"_bus_holder", "_bus_expiry", "_bus_payload"} then None else FieldText(custom, key)
  {
    RemoveFieldsIsMapRemoval(custom, SLOT_FIELDS, key);
  }
}
