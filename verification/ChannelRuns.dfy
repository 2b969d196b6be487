/** Message channels under concurrency (keeper_sdk/secrets/bus.py): any number of
    clients publish, collect garbage and poll on one record; a read and the
    compare-and-swap that follows it are separate steps, and everything else may happen
    in between, including writes to other labels of the same record.

    `log` is a history variable: the successful channel writes, oldest first. */
module ChannelRuns {
  import opened Json
  import opened BusRecord
  import opened BusFormat
  import opened KsmBus

  datatype LogEntry =
    | Posting(who: nat, message: BusMessage, suffix: string)
    | Collection(who: nat, cutoff: int)

  /** Where a client stands in its present call.  `started` (the length of the log when
      the call began) and `beaten` (tries lost so far) are history. */
  datatype Client =
    | Idle
    | Trying(draft: Draft, triesLeft: nat, started: nat, beaten: nat)
    | Ready(draft: Draft, messages: seq<Dict>, version: int, now: int, triesLeft: nat, started: nat, beaten: nat)
    | Collecting(kept: seq<Dict>, removed: nat, version: int, cutoff: int)

  /** A reader that passes the last id it received; `seen` is history. */
  datatype Consumer = Consumer(address: string, last: Option<string>, received: seq<BusMessage>, seen: nat)

  datatype State = State(
    custom: seq<Entry>, clients: map<nat, Client>, consumers: map<nat, Consumer>,
    clock: int, horizon: int, log: seq<LogEntry>)

  datatype Step =
    | Begin(c: nat, draft: Draft, tries: nat)
    | LoadForPost(c: nat)
    | CasPost(c: nat, suffix: string)
    | LoadForGc(c: nat, cutoff: int)
    | CasGc(c: nat)
    | OtherPublish(w: Write)
    | OtherPut(key: string, text: string)
    | OtherDelete(key: string)
    | Tick(dt: nat)
    | Poll(k: nat)

  function ClientAt(s: State, c: nat): Client {
    if c in s.clients then s.clients[c] else Idle
  }

  function Max(a: int, b: int): int {
    if a < b then b else a
  }

  /** One step; a step that is not enabled changes nothing. */
  function Next(f: Format, key: string, s: State, step: Step): State {
    match step
    case Begin(c, draft, tries) =>
      if ClientAt(s, c).Idle? && ChannelKey(draft.channel) == key && tries > 0
      then s.(clients := s.clients[c := Trying(draft, tries, |s.log|, 0)])
      else s
    case LoadForPost(c) =>
      var loaded := Load(f, s.custom, key);
      (match ClientAt(s, c)
       case Trying(draft, left, started, beaten) =>
         if loaded.Corrupt? then s.(clients := s.clients[c := Idle])
         else s.(clients := s.clients[c := Ready(draft, loaded.messages, loaded.version, s.clock, left, started, beaten)])
       case _ => s)
    case CasPost(c, suffix) =>
      (match ClientAt(s, c)
       case Ready(draft, messages, version, now, left, started, beaten) =>
         var w := PostWrite(f, key, draft, Channel(messages, version), Try([], suffix, now));
         var message := Message(f, draft, version + 1, suffix, now);
         (match PublishOutcome(f, s.custom, key, w.expected)
          case Written(_) =>
            s.(custom := Published(f, s.custom, w), clients := s.clients[c := Idle],
               log := s.log + [Posting(c, message, suffix)])
          case _ =>
            s.(clients := s.clients[c := if left <= 1 then Idle else Trying(draft, left - 1, started, beaten + 1)]))
       case _ => s)
    case LoadForGc(c, cutoff) =>
      var loaded := Load(f, s.custom, key);
      if !ClientAt(s, c).Idle? || loaded.Corrupt? then s
      else
        var kept := Kept(f, loaded.messages, cutoff);
        if |kept| == |loaded.messages| then s
        else
          KeptLength(f, loaded.messages, cutoff);
          s.(clients := s.clients[c := Collecting(kept, |loaded.messages| - |kept|, loaded.version, cutoff)],
             horizon := Max(s.horizon, cutoff))
    case CasGc(c) =>
      (match ClientAt(s, c)
       case Collecting(kept, removed, version, cutoff) =>
         var w := Write(key, JList(Wrap(kept)), Some(version), s.clock);
         var idle := s.(clients := s.clients[c := Idle]);
         if PublishOutcome(f, s.custom, key, w.expected).Written?
         then idle.(custom := Published(f, s.custom, w), log := s.log + [Collection(c, cutoff)])
         else idle
       case _ => s)
    case OtherPublish(w) => if w.key == key then s else s.(custom := Published(f, s.custom, w))
    case OtherPut(k, text) => if k == key || k == "" then s else s.(custom := SetField(s.custom, k, text))
    case OtherDelete(k) => if k == key || k == "" then s else s.(custom := RemoveFields(s.custom, {k}))
    case Tick(dt) => s.(clock := s.clock + dt, horizon := Max(s.horizon, s.clock + dt))
    case Poll(k) =>
      var loaded := Load(f, s.custom, key);
      if k !in s.consumers || loaded.Corrupt? then s
      else
        var r := s.consumers[k];
        var out := Polled(f, loaded.messages, r.last, r.address, s.clock);
        var last := if out == [] then r.last else Some(out[|out| - 1].id);
        s.(consumers := s.consumers[k := Consumer(r.address, last, r.received + out, |s.log|)])
  }

  function Run(f: Format, key: string, s: State, steps: seq<Step>): State
    decreases |steps|
  {
    if steps == [] then s else Run(f, key, Next(f, key, s, steps[0]), steps[1..])
  }

  /** A record without the channel, idle clients, readers that have read nothing. */
  ghost predicate Initial(key: string, s: State) {
    && Lookup(s.custom, key).None?
    && s.log == [] && s.clients == map[] && s.horizon == s.clock
    && forall k | k in s.consumers ::
         s.consumers[k].last == None && s.consumers[k].received == [] && s.consumers[k].seen == 0
  }

  // ----------------------------------------------------------- what a channel holds

  /** The messages posted and not collected since, in version order. */
  function Live(f: Format, log: seq<LogEntry>): seq<BusMessage> {
    if log == [] then []
    else
      var before := Live(f, log[..|log| - 1]);
      match log[|log| - 1]
      case Posting(_, m, _) => before + [m]
      case Collection(_, cutoff) => Unexpired(f, before, cutoff)
  }

  function Unexpired(f: Format, ms: seq<BusMessage>, cutoff: int): seq<BusMessage> {
    if ms == [] then []
    else (if Expired(f, AsRead(ms[0]), cutoff) then [] else [ms[0]]) + Unexpired(f, ms[1..], cutoff)
  }

  function AsDicts(f: Format, ms: seq<BusMessage>): seq<Dict> {
    seq(|ms|, i requires 0 <= i < |ms| => f.pack(ms[i]))
  }

  ghost predicate Others(log: seq<LogEntry>, from: int, c: nat) {
    forall i | 0 <= i < |log| && from <= i :: log[i].who != c
  }

  ghost predicate ClientInv(f: Format, log: seq<LogEntry>, c: nat, client: Client) {
    match client
    case Idle => true
    case Trying(_, left, started, beaten) =>
      left > 0 && started + beaten <= |log| && Others(log, started, c)
    case Ready(_, messages, version, _, left, started, beaten) =>
      && left > 0 && started + beaten <= version <= |log|
      && messages == AsDicts(f, Live(f, log[..version]))
      && Others(log, started, c)
    case Collecting(kept, removed, version, cutoff) =>
      && 0 <= version <= |log|
      && kept == Kept(f, AsDicts(f, Live(f, log[..version])), cutoff)
      && Others(log, version, c)
  }

  ghost predicate LogIds(log: seq<LogEntry>) {
    forall i | 0 <= i < |log| && log[i].Posting? :: log[i].message.id == MessageId(i + 1, log[i].suffix)
  }

  ghost predicate ChannelInv(f: Format, key: string, s: State) {
    && Load(f, s.custom, key) == Channel(AsDicts(f, Live(f, s.log)), |s.log|)
    && LogIds(s.log)
    && (forall c | c in s.clients :: ClientInv(f, s.log, c, s.clients[c]))
    && (forall c | c in s.clients && s.clients[c].Collecting? :: s.clients[c].cutoff <= s.horizon)
    && (forall i | 0 <= i < |s.log| && s.log[i].Collection? :: s.log[i].cutoff <= s.horizon)
    && s.clock <= s.horizon
  }

  // ------------------------------------------------------------------- preservation

  lemma {:induction false} KeptIsUnexpired(f: Format, ms: seq<BusMessage>, cutoff: int)
    requires Sound(f)
    ensures Kept(f, AsDicts(f, ms), cutoff) == AsDicts(f, Unexpired(f, ms, cutoff))
  {
    hide Expired, AsRead;
    if ms != [] {
      KeptIsUnexpired(f, ms[1..], cutoff);
      assert f.unpack(f.pack(ms[0])) == AsRead(ms[0]);
      assert AsDicts(f, ms)[1..] == AsDicts(f, ms[1..]);
    }
  }

  /** A write to the channel under a fresh version is what the next load returns. */
  lemma LoadAfterWrite(f: Format, custom: seq<Entry>, key: string, messages: seq<Dict>, expected: int, now: int)
    requires Sound(f) && key != ""
    requires VersionOf(f, custom, key) == expected
    ensures Load(f, Published(f, custom, Write(key, JList(Wrap(messages)), Some(expected), now)), key)
         == Channel(messages, expected + 1)
  {
    PublishIsCompareAndSwap(f, custom, Write(key, JList(Wrap(messages)), Some(expected), now), key);
    DictsOfWrap(messages);
  }

  /** Another client's write does not disturb what a client knows. */
  lemma ClientInvGrows(f: Format, log: seq<LogEntry>, e: LogEntry, c: nat, client: Client)
    requires ClientInv(f, log, c, client) && e.who != c
    ensures ClientInv(f, log + [e], c, client)
  {
    if client.Ready? || client.Collecting? {
      assert (log + [e])[..client.version] == log[..client.version];
    }
  }

  lemma CasPostWins(f: Format, key: string, s: State, c: nat, suffix: string)
    requires Sound(f) && key != "" && ChannelInv(f, key, s) && ClientAt(s, c).Ready? && s.clients[c].version == |s.log|
    ensures var t := Next(f, key, s, CasPost(c, suffix));
            var client := s.clients[c];
            var m := Message(f, client.draft, |s.log| + 1, suffix, client.now);
            && t.log == s.log + [Posting(c, m, suffix)]
            && t == s.(custom := t.custom, clients := s.clients[c := Idle], log := t.log)
            && Load(f, t.custom, key) == Channel(AsDicts(f, Live(f, s.log) + [m]), |t.log|)
  {
    hide Message, Live, Load;
    var Ready(draft, messages, version, now, left, started, beaten) := s.clients[c];
    LoadedVersion(f, s.custom, key);
    assert ClientInv(f, s.log, c, s.clients[c]);
    var m := Message(f, draft, version + 1, suffix, now);
    assert s.log[..version] == s.log;
    assert AsDicts(f, Live(f, s.log) + [m]) == AsDicts(f, Live(f, s.log)) + [f.pack(m)];
    LoadAfterWrite(f, s.custom, key, messages + [f.pack(m)], version, now);
  }

  lemma CasPostLoses(f: Format, key: string, s: State, c: nat, suffix: string)
    requires Sound(f) && key != "" && ChannelInv(f, key, s) && ClientAt(s, c).Ready? && s.clients[c].version != |s.log|
    ensures var t := Next(f, key, s, CasPost(c, suffix));
            var Ready(draft, _, _, _, left, started, beaten) := s.clients[c];
            t == s.(clients := s.clients[c := if left <= 1 then Idle else Trying(draft, left - 1, started, beaten + 1)])
  {
    LoadedVersion(f, s.custom, key);
  }

  lemma CasGcWins(f: Format, key: string, s: State, c: nat)
    requires Sound(f) && key != "" && ChannelInv(f, key, s)
    requires ClientAt(s, c).Collecting? && s.clients[c].version == |s.log|
    ensures var t := Next(f, key, s, CasGc(c));
            var cutoff := s.clients[c].cutoff;
            && t.log == s.log + [Collection(c, cutoff)]
            && t == s.(custom := t.custom, clients := s.clients[c := Idle], log := t.log)
            && Load(f, t.custom, key) == Channel(AsDicts(f, Unexpired(f, Live(f, s.log), cutoff)), |t.log|)
  {
    var Collecting(kept, removed, version, cutoff) := s.clients[c];
    LoadedVersion(f, s.custom, key);
    assert ClientInv(f, s.log, c, s.clients[c]);
    assert s.log[..version] == s.log;
    KeptIsUnexpired(f, Live(f, s.log), cutoff);
    LoadAfterWrite(f, s.custom, key, kept, version, s.clock);
  }

  /** A won compare-and-swap extends the log by one write; every other client's
      knowledge of the log stays true. */
  lemma GrownLogKeeps(f: Format, key: string, s: State, t: State, c: nat, e: LogEntry)
    requires ChannelInv(f, key, s)
    requires t == s.(custom := t.custom, clients := s.clients[c := Idle], log := s.log + [e])
    requires e.who == c
    requires e.Posting? ==> e.message.id == MessageId(|s.log| + 1, e.suffix)
    requires e.Collection? ==> e.cutoff <= s.horizon
    requires Load(f, t.custom, key) == Channel(AsDicts(f, Live(f, t.log)), |t.log|)
    ensures ChannelInv(f, key, t)
  {
    forall d | d in t.clients ensures ClientInv(f, t.log, d, t.clients[d]) {
      if d != c { ClientInvGrows(f, s.log, e, d, s.clients[d]); }
    }
  }

  lemma CasPostKeeps(f: Format, key: string, s: State, c: nat, suffix: string)
    requires Sound(f) && key != "" && ChannelInv(f, key, s) && ClientAt(s, c).Ready?
    ensures ChannelInv(f, key, Next(f, key, s, CasPost(c, suffix)))
  {
    var t := Next(f, key, s, CasPost(c, suffix));
    assert ClientInv(f, s.log, c, s.clients[c]);
    if s.clients[c].version == |s.log| {
      CasPostWins(f, key, s, c, suffix);
      assert t.log[..|t.log| - 1] == s.log;
      GrownLogKeeps(f, key, s, t, c, t.log[|s.log|]);
    } else {
      CasPostLoses(f, key, s, c, suffix);
      forall d | d in t.clients ensures ClientInv(f, t.log, d, t.clients[d]) {}
    }
  }

  lemma CasGcLoses(f: Format, key: string, s: State, c: nat)
    requires Sound(f) && key != "" && ChannelInv(f, key, s)
    requires ClientAt(s, c).Collecting? && s.clients[c].version != |s.log|
    ensures ChannelInv(f, key, Next(f, key, s, CasGc(c)))
  {
    hide LogIds, Live, AsDicts;
    LoadedVersion(f, s.custom, key);
  }

  lemma CasGcKeeps(f: Format, key: string, s: State, c: nat)
    requires Sound(f) && key != "" && ChannelInv(f, key, s) && ClientAt(s, c).Collecting?
    ensures ChannelInv(f, key, Next(f, key, s, CasGc(c)))
  {
    hide Next;
    var t := Next(f, key, s, CasGc(c));
    if s.clients[c].version == |s.log| {
      CasGcWins(f, key, s, c);
      assert t.log[..|t.log| - 1] == s.log;
      GrownLogKeeps(f, key, s, t, c, t.log[|s.log|]);
    } else {
      CasGcLoses(f, key, s, c);
    }
  }

  lemma OtherKeysKeep(f: Format, key: string, s: State, step: Step)
    requires Sound(f) && key != "" && ChannelInv(f, key, s)
    requires step.OtherPublish? || step.OtherPut? || step.OtherDelete?
    ensures ChannelInv(f, key, Next(f, key, s, step))
  {
    var t := Next(f, key, s, step);
    match step {
      case OtherPublish(w) => if w.key != "" && w.key != key { PublishIsCompareAndSwap(f, s.custom, w, key); }
      case OtherPut(k, text) => SetFieldIsMapUpdate(s.custom, k, text, key);
      case OtherDelete(k) => RemoveFieldsIsMapRemoval(s.custom, {k}, key);
    }
    LoadDependsOnField(f, s.custom, t.custom, key);
  }

  lemma BeginKeeps(f: Format, key: string, s: State, step: Step)
    requires Sound(f) && key != "" && ChannelInv(f, key, s) && step.Begin?
    ensures ChannelInv(f, key, Next(f, key, s, step))
  {
    var t := Next(f, key, s, step);
    assert s.log[..|s.log|] == s.log;
    forall d | d in t.clients ensures ClientInv(f, t.log, d, t.clients[d]) {
      if d in s.clients { assert ClientInv(f, s.log, d, s.clients[d]); }
    }
  }

  lemma LoadForPostKeeps(f: Format, key: string, s: State, step: Step)
    requires Sound(f) && key != "" && ChannelInv(f, key, s) && step.LoadForPost?
    ensures ChannelInv(f, key, Next(f, key, s, step))
  {
    var t := Next(f, key, s, step);
    assert s.log[..|s.log|] == s.log;
    forall d | d in t.clients ensures ClientInv(f, t.log, d, t.clients[d]) {
      if d in s.clients { assert ClientInv(f, s.log, d, s.clients[d]); }
    }
  }

  lemma LoadForGcKeeps(f: Format, key: string, s: State, step: Step)
    requires Sound(f) && key != "" && ChannelInv(f, key, s) && step.LoadForGc?
    ensures ChannelInv(f, key, Next(f, key, s, step))
  {
    var t := Next(f, key, s, step);
    assert s.log[..|s.log|] == s.log;
    forall d | d in t.clients ensures ClientInv(f, t.log, d, t.clients[d]) {
      if d in s.clients { assert ClientInv(f, s.log, d, s.clients[d]); }
    }
  }

  /** Every step of every client keeps the channel invariant. */
  lemma StepKeepsChannel(f: Format, key: string, s: State, step: Step)
    requires Sound(f) && key != "" && ChannelInv(f, key, s)
    ensures ChannelInv(f, key, Next(f, key, s, step))
  {
    match step {
      case CasPost(c, suffix) => if ClientAt(s, c).Ready? { CasPostKeeps(f, key, s, c, suffix); }
      case CasGc(c) => if ClientAt(s, c).Collecting? { CasGcKeeps(f, key, s, c); }
      case Tick(_) =>
      case Poll(_) =>
      case OtherPublish(_) => OtherKeysKeep(f, key, s, step);
      case OtherPut(_, _) => OtherKeysKeep(f, key, s, step);
      case OtherDelete(_) => OtherKeysKeep(f, key, s, step);
      case Begin(_, _, _) => BeginKeeps(f, key, s, step);
      case LoadForPost(_) => LoadForPostKeeps(f, key, s, step);
      case LoadForGc(_, _) => LoadForGcKeeps(f, key, s, step);
    }
  }
}
