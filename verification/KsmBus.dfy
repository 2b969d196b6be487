/** `KsmBus` and `BusClient` (keeper_sdk/secrets/bus.py): versioned compare-and-swap on
    one labelled field, and message channels built on it. */
module KsmBus {
  import opened Json
  import opened Numerals
  import opened Sorting
  import opened BusRecord
  import opened BusFormat

  const CHANNEL_PREFIX := "dsk.bus.channel."
  const CURSOR_PREFIX := "dsk.bus.cursor."

  // ------------------------------------------------------------- versioned fields

  /** `_decode_value` of a field */
  function DecodeField(f: Format, field: Entry): Option<Versioned>
    requires field.Field?
  {
    if field.values == [] then None else Some(f.decode(field.values[0]))
  }

  /** `KsmBus.get` */
  function Read(f: Format, custom: seq<Entry>, key: string): Option<Versioned> {
    match Lookup(custom, key)
    case Some(field) => DecodeField(f, field)
    case None => None
  }

  function VersionOf(f: Format, custom: seq<Entry>, key: string): int {
    match Read(f, custom, key)
    case Some(v) => v.version
    case None => 0
  }

  datatype Outcome = Written(version: int) | VersionConflict(expected: int, actual: int) | InvalidKey

  /** `KsmBus.publish`: the outcome ... */
  function PublishOutcome(f: Format, custom: seq<Entry>, key: string, expected: Option<int>): Outcome {
    var actual := VersionOf(f, custom, key);
    if key == "" then InvalidKey
    else if expected.Some? && expected.value != actual then VersionConflict(expected.value, actual)
    else Written(actual + 1)
  }

  /** ... and the field list it leaves behind. */
  function Published(f: Format, custom: seq<Entry>, w: Write): seq<Entry> {
    match PublishOutcome(f, custom, w.key, w.expected)
    case Written(version) => SetField(custom, w.key, f.encode(w.value, version, w.now))
    case _ => custom
  }

  /** One `publish` call. */
  datatype Write = Write(key: string, value: Json, expected: Option<int>, now: int)

  function PublishedAll(f: Format, custom: seq<Entry>, writes: seq<Write>): seq<Entry>
    decreases |writes|
  {
    if writes == [] then custom else PublishedAll(f, Published(f, custom, writes[0]), writes[1..])
  }

  /** Compare-and-swap: a write happens exactly when nobody moved the version; it stores
      the value under the next version, a refused one changes nothing, and no other
      label is ever affected. */
  lemma PublishIsCompareAndSwap(f: Format, custom: seq<Entry>, w: Write, other: string)
    requires Sound(f) && w.key != ""
    ensures var before := VersionOf(f, custom, w.key);
            var after := Published(f, custom, w);
            if w.expected.Some? && w.expected.value != before
            then after == custom && PublishOutcome(f, custom, w.key, w.expected) == VersionConflict(w.expected.value, before)
            else PublishOutcome(f, custom, w.key, w.expected) == Written(before + 1)
                 && Read(f, after, w.key) == Some(Versioned(w.value, before + 1))
    ensures other != w.key ==> Lookup(Published(f, custom, w), other) == Lookup(custom, other)
  {
    var text := f.encode(w.value, VersionOf(f, custom, w.key) + 1, w.now);
    SetFieldIsMapUpdate(custom, w.key, text, w.key);
    SetFieldIsMapUpdate(custom, w.key, text, other);
    assert f.decode(text) == Versioned(w.value, VersionOf(f, custom, w.key) + 1);
  }

  /** No ABA: through any writes of any clients a key's version never falls, and while it
      stands still the field itself has not been touched. */
  lemma {:induction false} VersionsOnlyGrow(f: Format, custom: seq<Entry>, writes: seq<Write>, key: string)
    requires Sound(f)
    ensures VersionOf(f, PublishedAll(f, custom, writes), key) >= VersionOf(f, custom, key)
    ensures VersionOf(f, PublishedAll(f, custom, writes), key) == VersionOf(f, custom, key)
       ==> Lookup(PublishedAll(f, custom, writes), key) == Lookup(custom, key)
    decreases |writes|
  {
    if writes != [] {
      var w := writes[0];
      VersionsOnlyGrow(f, Published(f, custom, w), writes[1..], key);
      if w.key != "" {
        PublishIsCompareAndSwap(f, custom, w, key);
      }
    }
  }

  lemma {:induction false} PublishedAllConcat(f: Format, custom: seq<Entry>, a: seq<Write>, b: seq<Write>)
    ensures PublishedAll(f, custom, a + b) == PublishedAll(f, PublishedAll(f, custom, a), b)
    decreases |a|
  {
    if a == [] {
      assert a + b == b;
    } else {
      assert (a + b)[0] == a[0] && (a + b)[1..] == a[1..] + b;
      PublishedAllConcat(f, Published(f, custom, a[0]), a[1..], b);
    }
  }

  // -------------------------------------------------------------------- messages

  /** `BusMessage.expired`; an unreadable timestamp never expires. */
  predicate Expired(f: Format, m: BusMessage, now: int) {
    match f.parse(m.timestamp)
    case None => false
    case Some(t) => t + m.ttl <= now
  }

  // -------------------------------------------------------------------- channels

  const PAD_LIMIT: nat := 100_000_000_000_000_000_000  // 10^20

  /** `_message_id`: the version zero-padded to 20 columns (a sign takes one), then random hex. */
  function MessageId(version: int, suffix: string): string {
    var padded :=
      if version < 0 then "-" + (if -version < PAD_LIMIT / 10 then Digits(-version, 19) else Decimal(-version))
      else if version < PAD_LIMIT then Digits(version, 20) else Decimal(version);
    padded + "-" + suffix
  }

  function ChannelName(channel: string): string {
    if channel == "" then DEFAULT_CHANNEL else channel
  }

  function ChannelKey(channel: string): string {
    CHANNEL_PREFIX + ChannelName(channel)
  }

  /** Channels and cursors are kept under their own labels; the default channel has a name. */
  lemma LabelsAre(channel: string, consumer: string)
    ensures channel != "" ==> ChannelKey(channel) == "dsk.bus.channel." + channel && CursorKey(channel, consumer) == "dsk.bus.cursor." + channel + "." + consumer
    ensures ChannelKey("") == "dsk.bus.channel.default" && CursorKey("", consumer) == "dsk.bus.cursor.default." + consumer
  {}

  function CursorKey(channel: string, consumer: string): string {
    CURSOR_PREFIX + ChannelName(channel) + "." + consumer
  }

  /** Acknowledgement cursors can never be mistaken for a channel. */
  lemma CursorsAreNotChannels(channel: string, other: string, consumer: string)
    ensures ChannelKey(channel) != CursorKey(other, consumer)
  {
    assert ChannelKey(channel)[9] == 'h';
    assert CursorKey(other, consumer)[9] == 'u';
  }

  datatype Loaded = Channel(messages: seq<Dict>, version: int) | Corrupt

  function Wrap(messages: seq<Dict>): seq<Json> {
    seq(|messages|, i requires 0 <= i < |messages| => JObj(messages[i]))
  }

  lemma {:induction false} DictsOfWrap(messages: seq<Dict>)
    ensures Dicts(Wrap(messages)) == messages
  {
    if messages != [] {
      assert Wrap(messages)[1..] == Wrap(messages[1..]);
      DictsOfWrap(messages[1..]);
    }
  }

  /** `BusClient._load_channel` */
  function Load(f: Format, custom: seq<Entry>, key: string): Loaded {
    match Read(f, custom, key)
    case None => Channel([], 0)
    case Some(v) => if v.value.JList? then Channel(Dicts(v.value.items), v.version) else Corrupt
  }

  lemma LoadDependsOnField(f: Format, a: seq<Entry>, b: seq<Entry>, key: string)
    requires Lookup(a, key) == Lookup(b, key)
    ensures Load(f, a, key) == Load(f, b, key)
  {}

  lemma LoadedVersion(f: Format, custom: seq<Entry>, key: string)
    requires Load(f, custom, key).Channel?
    ensures VersionOf(f, custom, key) == Load(f, custom, key).version
  {}

  predicate Addressed(m: BusMessage, consumer: string) {
    consumer == "*" || m.recipient == consumer || m.recipient == "*"
  }

  predicate Visible(f: Format, m: BusMessage, since: Option<string>, consumer: string, now: int) {
    && (since.Some? ==> !StrLe(m.id, since.value))
    && Addressed(m, consumer)
    && !Expired(f, m, now)
  }

  function Select(f: Format, messages: seq<Dict>, since: Option<string>, consumer: string, now: int): seq<BusMessage> {
    if messages == [] then []
    else SelectOne(f, messages[0], since, consumer, now) + Select(f, messages[1..], since, consumer, now)
  }

  function SelectOne(f: Format, raw: Dict, since: Option<string>, consumer: string, now: int): seq<BusMessage> {
    var m := f.unpack(raw);
    if Visible(f, m, since, consumer, now) then [m] else []
  }

  function IdKey(m: BusMessage): Key {
    Key(0, 0, m.id)
  }

  /** What `BusClient.subscribe` returns for a loaded channel. */
  function Polled(f: Format, messages: seq<Dict>, since: Option<string>, consumer: string, now: int): seq<BusMessage> {
    SortBy(Select(f, messages, since, consumer, now), IdKey)
  }

  /** What `BusClient.gc` keeps. */
  function Kept(f: Format, messages: seq<Dict>, cutoff: int): seq<Dict> {
    if messages == [] then []
    else (if Expired(f, f.unpack(messages[0]), cutoff) then [] else [messages[0]])
         + Kept(f, messages[1..], cutoff)
  }

  function GcWrite(f: Format, channel: string, loaded: Loaded, cutoff: int, now: int): Write
    requires loaded.Channel?
  {
    Write(ChannelKey(channel), JList(Wrap(Kept(f, loaded.messages, cutoff))), Some(loaded.version), now)
  }

  lemma {:induction false} KeptLength(f: Format, messages: seq<Dict>, cutoff: int)
    ensures |Kept(f, messages, cutoff)| <= |messages|
    ensures |Kept(f, messages, cutoff)| == |messages| ==> Kept(f, messages, cutoff) == messages
  {
    if messages != [] {
      KeptLength(f, messages[1..], cutoff);
    }
  }

  // ------------------------------------------------------------- the publish call

  /** One try of a publish call: what other clients write to the record between the read
      and the compare-and-swap, and the random suffix and clock the try draws. */
  datatype Try = Try(others: seq<Write>, suffix: string, now: int)

  /** The caller's part of a message. */
  datatype Draft = Draft(sender: string, recipient: string, subject: string, payload: Json,
                         trace: Json, ttl: int, channel: string)

  function Message(f: Format, d: Draft, version: int, suffix: string, now: int): BusMessage {
    BusMessage(MessageId(version, suffix), d.sender, d.recipient, d.subject, f.stamp(now),
               d.payload, d.trace, d.ttl, ChannelName(d.channel))
  }

  /** The write a publish call attempts on a channel it has loaded. */
  function PostWrite(f: Format, key: string, d: Draft, loaded: Loaded, t: Try): Write
    requires loaded.Channel?
  {
    var m := Message(f, d, loaded.version + 1, t.suffix, t.now);
    Write(key, JList(Wrap(loaded.messages + [f.pack(m)])), Some(loaded.version), t.now)
  }

  /** `after` is `before` with the draft appended to its channel under the next version. */
  predicate Appended(f: Format, key: string, d: Draft, before: seq<Entry>, after: seq<Entry>, t: Try, id: string) {
    var loaded := Load(f, before, key);
    && loaded.Channel?
    && after == SetField(before, key,
                         f.encode(PostWrite(f, key, d, loaded, t).value, loaded.version + 1, t.now))
    && id == MessageId(loaded.version + 1, t.suffix)
  }

  lemma PostWins(f: Format, key: string, d: Draft, start: seq<Entry>, t: Try)
    requires Sound(f) && key != "" && Load(f, start, key).Channel?
    requires VersionOf(f, PublishedAll(f, start, t.others), key) == VersionOf(f, start, key)
    ensures var before := PublishedAll(f, start, t.others);
            var loaded := Load(f, start, key);
            var w := PostWrite(f, key, d, loaded, t);
            && VersionOf(f, before, key) == loaded.version
            && PublishOutcome(f, before, w.key, w.expected) == Written(loaded.version + 1)
            && Appended(f, key, d, before, Published(f, before, w), t, MessageId(loaded.version + 1, t.suffix))
  {
    hide Message, PublishedAll, Load;
    VersionsOnlyGrow(f, start, t.others, key);
    LoadedVersion(f, start, key);
    LoadDependsOnField(f, PublishedAll(f, start, t.others), start, key);
  }

  lemma PostLoses(f: Format, key: string, d: Draft, start: seq<Entry>, t: Try)
    requires Sound(f) && key != "" && Load(f, start, key).Channel?
    requires VersionOf(f, PublishedAll(f, start, t.others), key) != VersionOf(f, start, key)
    ensures var before := PublishedAll(f, start, t.others);
            var loaded := Load(f, start, key);
            var w := PostWrite(f, key, d, loaded, t);
            && VersionOf(f, before, key) > loaded.version == VersionOf(f, start, key)
            && PublishOutcome(f, before, w.key, w.expected) == VersionConflict(loaded.version, VersionOf(f, before, key))
            && Published(f, before, w) == before
  {
    VersionsOnlyGrow(f, start, t.others, key);
    LoadedVersion(f, start, key);
  }

  /** A compare-and-swap against a version read earlier appends to the present channel. */
  lemma PostAppends(f: Format, key: string, d: Draft, start: seq<Entry>, t: Try)
    requires Sound(f) && key != ""
    requires Load(f, start, key).Channel?
    ensures var before := PublishedAll(f, start, t.others);
            var loaded := Load(f, start, key);
            var w := PostWrite(f, key, d, loaded, t);
            var now := VersionOf(f, before, key);
            if now == loaded.version then
              && PublishOutcome(f, before, w.key, w.expected) == Written(now + 1)
              && Appended(f, key, d, before, Published(f, before, w), t, MessageId(now + 1, t.suffix))
            else
              && now > loaded.version
              && PublishOutcome(f, before, w.key, w.expected) == VersionConflict(loaded.version, now)
              && Published(f, before, w) == before
  {
    LoadedVersion(f, start, key);
    if VersionOf(f, PublishedAll(f, start, t.others), key) == VersionOf(f, start, key) {
      PostWins(f, key, d, start, t);
    } else {
      PostLoses(f, key, d, start, t);
    }
  }

  /** All the writes of others during the given tries, in order. */
  function Everyone(tries: seq<Try>): seq<Write> {
    if tries == [] then [] else tries[0].others + Everyone(tries[1..])
  }

  datatype Posted = Sent(id: string) | Exhausted(expected: int, actual: int) | CorruptChannel | BadDraft

  /** One round of the retry loop: read, let the others write, compare-and-swap. */
  function Once(f: Format, key: string, d: Draft, start: seq<Entry>, t: Try): (Posted, seq<Entry>) {
    var loaded := Load(f, start, key);
    if loaded.Corrupt? then (CorruptChannel, start)
    else
      var w := PostWrite(f, key, d, loaded, t);
      var before := PublishedAll(f, start, t.others);
      (Report(PublishOutcome(f, before, w.key, w.expected), MessageId(loaded.version + 1, t.suffix)),
       Published(f, before, w))
  }

  function Report(o: Outcome, id: string): Posted {
    match o
    case Written(_) => Sent(id)
    case VersionConflict(expected, actual) => Exhausted(expected, actual)
    case InvalidKey => BadDraft
  }

  /** The call: the last conflict is what it reports when every round is lost. */
  function Call(f: Format, key: string, d: Draft, start: seq<Entry>, tries: seq<Try>): (Posted, seq<Entry>)
    requires tries != []
    decreases |tries|
  {
    var (r, end) := Once(f, key, d, start, tries[0]);
    if r.Exhausted? && |tries| > 1 then Call(f, key, d, end, tries[1..]) else (r, end)
  }

  /** Whatever the other clients write in between: a call that gives up has written
      nothing, and a call that succeeds has appended its message to the channel as it
      stood at that moment, under the next version. */
  lemma {:induction false} CallMeaning(f: Format, key: string, d: Draft, start: seq<Entry>, tries: seq<Try>) returns (used: nat)
    requires Sound(f) && key != "" && tries != []
    ensures used <= |tries|
    ensures var (r, end) := Call(f, key, d, start, tries);
            var before := PublishedAll(f, start, Everyone(tries[..used]));
            match r
            case Sent(id) => used > 0 && Appended(f, key, d, before, end, tries[used - 1], id)
            case Exhausted(expected, actual) => used == |tries| && actual > expected && end == before
            case CorruptChannel => end == before
            case BadDraft => false
    decreases |tries|
  {
    hide Load, PostWrite, Published, PublishOutcome, Appended, Everyone;
    var (r, mid) := Once(f, key, d, start, tries[0]);
    if !r.CorruptChannel? {
      PostAppends(f, key, d, start, tries[0]);
    }
    if r.Exhausted? && |tries| > 1 {
      var rest := CallMeaning(f, key, d, mid, tries[1..]);
      used := rest + 1;
      EveryoneCons(f, start, tries, rest);
    } else {
      used := if r.CorruptChannel? then 0 else 1;
      EveryoneCons(f, start, tries, 0);
    }
  }

  lemma EveryoneCons(f: Format, start: seq<Entry>, tries: seq<Try>, n: nat)
    requires n < |tries|
    ensures PublishedAll(f, start, Everyone(tries[..n + 1]))
         == PublishedAll(f, PublishedAll(f, start, tries[0].others), Everyone(tries[1..][..n]))
    ensures n == 0 ==> PublishedAll(f, start, Everyone(tries[..1])) == PublishedAll(f, start, tries[0].others)
    ensures Everyone(tries[..0]) == []
  {
    assert tries[..n + 1][1..] == tries[1..][..n] && tries[..n + 1][0] == tries[0];
    PublishedAllConcat(f, start, tries[0].others, Everyone(tries[1..][..n]));
    assert n == 0 ==> Everyone(tries[1..][..n]) == [];
  }

  class KsmBus {
    const fmt: Format
    const record: Record

    constructor (fmt: Format, record: Record)
      ensures this.fmt == fmt && this.record == record
    {
      this.fmt := fmt;
      this.record := record;
    }

    method Get(key: string) returns (r: Option<Versioned>)
      ensures r == Read(fmt, record.custom, key)
    {
      var i := record.Matching(key);
      if i == |record.custom| {
        return None;
      }
      return DecodeField(fmt, record.custom[i]);
    }

    method Publish(w: Write) returns (r: Outcome)
      modifies record
      ensures r == PublishOutcome(fmt, old(record.custom), w.key, w.expected)
      ensures record.custom == Published(fmt, old(record.custom), w)
    {
      if w.key == "" {
        return InvalidKey;
      }
      var current := Get(w.key);
      var actual := if current.Some? then current.value.version else 0;
      if w.expected.Some? && w.expected.value != actual {
        return VersionConflict(w.expected.value, actual);
      }
      record.Set(w.key, fmt.encode(w.value, actual + 1, w.now));
      return Written(actual + 1);
    }

    /** Legacy raw write: the field then reads as version 0. */
    method Put(key: string, value: string) returns (ok: bool)
      modifies record
      ensures ok <==> key != ""
      ensures record.custom == if ok then SetField(old(record.custom), key, value) else old(record.custom)
    {
      if key == "" {
        return false;
      }
      record.Set(key, value);
      return true;
    }

    method Delete(key: string) returns (ok: bool)
      modifies record
      ensures ok <==> key != ""
      ensures record.custom == if ok then RemoveFields(old(record.custom), {key}) else old(record.custom)
    {
      if key == "" {
        return false;
      }
      var _ := record.Remove({key});
      return true;
    }

    /** Writes of other clients that reach the record. */
    method Interfere(writes: seq<Write>)
      modifies record
      ensures record.custom == PublishedAll(fmt, old(record.custom), writes)
    {
      for i := 0 to |writes|
        invariant PublishedAll(fmt, record.custom, writes[i..]) == PublishedAll(fmt, old(record.custom), writes)
      {
        var _ := Publish(writes[i]);
        assert writes[i..][1..] == writes[i + 1..];
      }
    }
  }

  class BusClient {
    const bus: KsmBus
    const agent: string
    const channel: string
    const maxRetries: nat

    constructor (bus: KsmBus, agent: string, channel: string, retries: int)
      requires agent != "" && channel != ""
      ensures this.bus == bus && this.agent == agent && this.channel == channel
      ensures this.maxRetries == if retries < 1 then 1 else retries
    {
      this.bus := bus;
      this.agent := agent;
      this.channel := channel;
      this.maxRetries := if retries < 1 then 1 else retries;
    }

    method LoadChannel(name: string) returns (r: Loaded)
      ensures r == Load(bus.fmt, bus.record.custom, ChannelKey(name))
    {
      var entry := bus.Get(ChannelKey(name));
      if entry.None? {
        return Channel([], 0);
      }
      if !entry.value.value.JList? {
        return Corrupt;
      }
      return Channel(Dicts(entry.value.value.items), entry.value.version);
    }

    method PostOnce(d: Draft, t: Try) returns (r: Posted)
      modifies bus.record
      ensures (r, bus.record.custom) == Once(bus.fmt, ChannelKey(d.channel), d, old(bus.record.custom), t)
    {
      var loaded := LoadChannel(d.channel);
      if loaded.Corrupt? { return CorruptChannel; }
      var w := PostWrite(bus.fmt, ChannelKey(d.channel), d, loaded, t);
      bus.Interfere(t.others);
      var outcome := bus.Publish(w);
      r := Report(outcome, MessageId(loaded.version + 1, t.suffix));
    }

    /** The bounded retry loop: the client posts in its own name. */
    method Post(to: string, subject: string, payload: Json, ttl: int, trace: Json, name: string, tries: seq<Try>)
      returns (r: Posted)
      requires |tries| == maxRetries && maxRetries > 0
      modifies bus.record
      ensures var d := Draft(agent, to, subject, payload, trace, ttl, if name == "" then channel else name);
              if to == "" || subject == ""
              then r == BadDraft && bus.record.custom == old(bus.record.custom)
              else (r, bus.record.custom) == Call(bus.fmt, ChannelKey(d.channel), d, old(bus.record.custom), tries)
    {
      if to == "" || subject == "" { return BadDraft; }
      var d := Draft(agent, to, subject, payload, trace, ttl, if name == "" then channel else name);
      var i := 0;
      while i + 1 < maxRetries
        invariant i < maxRetries
        invariant Call(bus.fmt, ChannelKey(d.channel), d, bus.record.custom, tries[i..]) == Call(bus.fmt, ChannelKey(d.channel), d, old(bus.record.custom), tries)
      {
        assert tries[i..][1..] == tries[i + 1..];
        r := PostOnce(d, tries[i]);
        if !r.Exhausted? { return; }
        i := i + 1;
      }
      r := PostOnce(d, tries[i]);
    }

    method Subscribe(since: Option<string>, consumer: string, name: string, now: int)
      returns (r: Option<seq<BusMessage>>)
      ensures var loaded := Load(bus.fmt, bus.record.custom, ChannelKey(if name == "" then channel else name));
              r == if loaded.Corrupt? then None
                   else Some(Polled(bus.fmt, loaded.messages, since, consumer, now))
    {
      var loaded := LoadChannel(if name == "" then channel else name);
      if loaded.Corrupt? { return None; }
      var out := Selected(loaded.messages, since, consumer, now);
      return Some(SortBy(out, IdKey));
    }

    method Selected(messages: seq<Dict>, since: Option<string>, consumer: string, now: int)
      returns (out: seq<BusMessage>)
      ensures out == Select(bus.fmt, messages, since, consumer, now)
    {
      hide SelectOne;
      out := [];
      for i := 0 to |messages|
        invariant out + Select(bus.fmt, messages[i..], since, consumer, now)
               == Select(bus.fmt, messages, since, consumer, now)
      {
        var one := SelectOne(bus.fmt, messages[i], since, consumer, now);
        assert messages[i..][1..] == messages[i + 1..];
        out := out + one;
      }
      assert messages[|messages|..] == [] && out + [] == out;
    }

    method Unexpired(messages: seq<Dict>, cutoff: int) returns (kept: seq<Dict>)
      ensures kept == Kept(bus.fmt, messages, cutoff)
    {
      kept := [];
      for i := 0 to |messages|
        invariant kept + Kept(bus.fmt, messages[i..], cutoff) == Kept(bus.fmt, messages, cutoff)
      {
        assert messages[i..][1..] == messages[i + 1..];
        if !Expired(bus.fmt, bus.fmt.unpack(messages[i]), cutoff) {
          kept := kept + [messages[i]];
        }
      }
      assert messages[|messages|..] == [] && kept + [] == kept;
    }

    /** Garbage collection: one read, then one compare-and-swap when anything expired. */
    method Gc(cutoff: int, others: seq<Write>, now: int) returns (removed: int, outcome: Option<Outcome>)
      modifies bus.record
      ensures var loaded := Load(bus.fmt, old(bus.record.custom), ChannelKey(channel));
              loaded.Corrupt? ==>
                removed == -1 && outcome == None && bus.record.custom == old(bus.record.custom)
      ensures var loaded := Load(bus.fmt, old(bus.record.custom), ChannelKey(channel));
              loaded.Channel? ==>
                var before := PublishedAll(bus.fmt, old(bus.record.custom), others);
                var w := GcWrite(bus.fmt, channel, loaded, cutoff, now);
                && removed == |loaded.messages| - |Kept(bus.fmt, loaded.messages, cutoff)|
                && outcome == (if removed == 0 then None
                               else Some(PublishOutcome(bus.fmt, before, w.key, w.expected)))
                && bus.record.custom == if removed == 0 then before else Published(bus.fmt, before, w)
    {
      var loaded := LoadChannel(channel);
      if loaded.Corrupt? { return -1, None; }
      var kept := Unexpired(loaded.messages, cutoff);
      removed := |loaded.messages| - |kept|;
      bus.Interfere(others);
      outcome := None;
      if removed != 0 {
        var o := bus.Publish(Write(ChannelKey(channel), JList(Wrap(kept)), Some(loaded.version), now));
        outcome := Some(o);
      }
    }
  }
}
