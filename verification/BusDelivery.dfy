/** What arrives (keeper_sdk/secrets/bus.py): messages said in terms of what their senders
    asked for, from the calling client to every reader of every run. */
module BusDelivery {
  import opened Json
  import opened BusRecord
  import opened BusFormat
  import opened KsmBus
  import opened ChannelRuns
  import opened ChannelTheorems

  /** What a reader finds of a draft that was sent as `version` at a moment `now`. */
  ghost predicate Delivers(f: Format, d: Draft, version: int, suffix: string, now: int, x: BusMessage) {
    && x.sender == d.sender && x.subject == d.subject && x.payload == d.payload && x.trace == d.trace
    && x.recipient == (if d.recipient != "" then d.recipient else "*")
    && x.ttl == (if d.ttl != 0 then d.ttl else 3600)
    && x.channel == (if d.channel != "" then d.channel else "default")
    && x.timestamp == f.stamp(now) && x.id == MessageId(version, suffix)
  }

  lemma MessageDelivers(f: Format, d: Draft, version: int, suffix: string, now: int)
    ensures Delivers(f, d, version, suffix, now, AsRead(Message(f, d, version, suffix, now)))
  {}

  lemma ReadsBack(f: Format, m: BusMessage)
    requires Sound(f)
    ensures f.unpack(f.pack(m)) == AsRead(m)
  {}

  // --------------------------------------------------------------------- a single call

  /** The last message of the channel is what the draft asked for. */
  ghost predicate EndsWith(f: Format, custom: seq<Entry>, key: string, d: Draft, id: string) {
    var loaded := Load(f, custom, key);
    && loaded.Channel? && loaded.messages != []
    && var x := f.unpack(loaded.messages[|loaded.messages| - 1]);
       x.id == id && exists version, suffix, now :: Delivers(f, d, version, suffix, now, x)
  }

  lemma AppendedDelivers(f: Format, key: string, d: Draft, before: seq<Entry>, after: seq<Entry>, t: Try, id: string)
    requires Sound(f) && Appended(f, key, d, before, after, t, id)
    ensures EndsWith(f, after, key, d, id)
  {
    hide Message, MessageId;
    var loaded := Load(f, before, key);
    var m := Message(f, d, loaded.version + 1, t.suffix, t.now);
    var value := JList(Wrap(loaded.messages + [f.pack(m)]));
    SetFieldIsMapUpdate(before, key, f.encode(value, loaded.version + 1, t.now), key);
    assert f.decode(f.encode(value, loaded.version + 1, t.now)) == Versioned(value, loaded.version + 1);
    DictsOfWrap(loaded.messages + [f.pack(m)]);
    assert Load(f, after, key) == Channel(loaded.messages + [f.pack(m)], loaded.version + 1);
    ReadsBack(f, m);
    MessageDelivers(f, d, loaded.version + 1, t.suffix, t.now);
  }

  /** A call that succeeds, whatever was written in between, leaves a channel that ends with
      its own message, from its sender to its recipient, under the id it returns. */
  lemma SentIsDelivered(f: Format, key: string, d: Draft, start: seq<Entry>, tries: seq<Try>)
    requires Sound(f) && key != "" && tries != []
    ensures var (r, end) := Call(f, key, d, start, tries);
            r.Sent? ==> EndsWith(f, end, key, d, r.id)
  {
    hide Call, Appended, EndsWith;
    var used := CallMeaning(f, key, d, start, tries);
    var (r, end) := Call(f, key, d, start, tries);
    if r.Sent? {
      AppendedDelivers(f, key, d, PublishedAll(f, start, Everyone(tries[..used])), end, tries[used - 1], r.id);
    }
  }

  // ------------------------------------------------------------------------- whole runs

  /** Client `c` began a call with this draft, for this channel. */
  ghost predicate Began(key: string, steps: seq<Step>, c: nat, d: Draft) {
    ChannelKey(d.channel) == key && exists i :: 0 <= i < |steps| && steps[i].Begin? && steps[i].c == c && steps[i].draft == d
  }

  /** A posted message is a draft of its client, stamped in the course of the run. */
  ghost predicate PostedFor(f: Format, key: string, steps: seq<Step>, from: int, until: int, version: int, e: LogEntry) {
    e.Posting? ==> exists d, now :: Began(key, steps, e.who, d) && from <= now <= until && e.message == Message(f, d, version, e.suffix, now)
  }

  ghost predicate DraftOf(key: string, steps: seq<Step>, from: int, until: int, c: nat, client: Client) {
    && (client.Trying? || client.Ready? ==> Began(key, steps, c, client.draft))
    && (client.Ready? ==> from <= client.now <= until)
  }

  ghost predicate Drafted(f: Format, key: string, steps: seq<Step>, from: int, s: State) {
    && from <= s.clock
    && (forall c | c in s.clients :: DraftOf(key, steps, from, s.clock, c, s.clients[c]))
    && (forall i | 0 <= i < |s.log| :: PostedFor(f, key, steps, from, s.clock, i + 1, s.log[i]))
  }

  lemma BeganGrows(key: string, steps: seq<Step>, last: Step, c: nat, d: Draft)
    ensures Began(key, steps, c, d) ==> Began(key, steps + [last], c, d)
    ensures last.Begin? && last.c == c && ChannelKey(last.draft.channel) == key ==> Began(key, steps + [last], c, last.draft)
  {
    var all := steps + [last];
    assert all[|steps|] == last;
    if i :| 0 <= i < |steps| && steps[i].Begin? && steps[i].c == c && steps[i].draft == d { assert all[i] == steps[i]; }
  }

  lemma PostedForGrows(f: Format, key: string, steps: seq<Step>, last: Step, from: int, until: int, until': int, version: int, e: LogEntry)
    requires PostedFor(f, key, steps, from, until, version, e) && until <= until'
    ensures PostedFor(f, key, steps + [last], from, until', version, e)
  {
    hide Began, Message;
    if e.Posting? {
      var d, now :| Began(key, steps, e.who, d) && from <= now <= until && e.message == Message(f, d, version, e.suffix, now);
      BeganGrows(key, steps, last, e.who, d);
    }
  }

  /** What a step can do to one client's draft. */
  lemma StepKeepsDraft(f: Format, key: string, s: State, steps: seq<Step>, last: Step, from: int, c: nat)
    requires Drafted(f, key, steps, from, s) && c in Next(f, key, s, last).clients
    ensures var t := Next(f, key, s, last); s.clock <= t.clock && DraftOf(key, steps + [last], from, t.clock, c, t.clients[c])
  {
    hide Began, Load, Message, Kept, PublishOutcome, Published, PostWrite, Polled;
    var t := Next(f, key, s, last);
    if c in s.clients && (s.clients[c].Trying? || s.clients[c].Ready?) {
      assert DraftOf(key, steps, from, s.clock, c, s.clients[c]);
      BeganGrows(key, steps, last, c, s.clients[c].draft);
    } else if last.Begin? {
      BeganGrows(key, steps, last, c, last.draft);
    }
  }

  /** The log grows by a message of its client's draft, or by a collection, or not at all. */
  lemma StepPosts(f: Format, key: string, s: State, last: Step)
    requires Sound(f) && key != "" && ChannelInv(f, key, s)
    ensures var t := Next(f, key, s, last);
            || t.log == s.log
            || (|t.log| == |s.log| + 1 && t.log[..|s.log|] == s.log && t.log[|s.log|].Collection?)
            || (last.CasPost? && ClientAt(s, last.c).Ready?
                && t.log == s.log + [Posting(last.c, Message(f, s.clients[last.c].draft, |s.log| + 1, last.suffix, s.clients[last.c].now), last.suffix)])
  {
    hide Message, Kept, Polled, Load, Live, AsDicts, ClientInv;
    if last.CasPost? && ClientAt(s, last.c).Ready? {
      LoadedVersion(f, s.custom, key);
    }
  }

  lemma StepKeepsDrafted(f: Format, key: string, s: State, steps: seq<Step>, last: Step, from: int)
    requires Sound(f) && key != "" && ChannelInv(f, key, s) && Drafted(f, key, steps, from, s)
    ensures Drafted(f, key, steps + [last], from, Next(f, key, s, last))
  {
    hide Next, ChannelInv, Began, PostedFor;
    var t := Next(f, key, s, last);
    StepClock(f, key, s, last);
    StepPosts(f, key, s, last);
    forall c | c in t.clients ensures DraftOf(key, steps + [last], from, t.clock, c, t.clients[c]) {
      StepKeepsDraft(f, key, s, steps, last, from, c);
    }
    forall i | 0 <= i < |t.log| ensures PostedFor(f, key, steps + [last], from, t.clock, i + 1, t.log[i]) {
      if i < |s.log| {
        assert t.log[..|s.log|] == s.log && t.log[i] == s.log[i];
        PostedForGrows(f, key, steps, last, from, s.clock, t.clock, i + 1, s.log[i]);
      } else {
        LastPosted(f, key, steps, last, from, s, t);
      }
    }
  }

  lemma StepClock(f: Format, key: string, s: State, last: Step)
    ensures s.clock <= Next(f, key, s, last).clock
  {}

  lemma LastPosted(f: Format, key: string, steps: seq<Step>, last: Step, from: int, s: State, t: State)
    requires Drafted(f, key, steps, from, s) && s.clock <= t.clock && |t.log| == |s.log| + 1
    requires t.log[|s.log|].Collection?
             || (last.CasPost? && ClientAt(s, last.c).Ready?
                 && t.log == s.log + [Posting(last.c, Message(f, s.clients[last.c].draft, |s.log| + 1, last.suffix, s.clients[last.c].now), last.suffix)])
    ensures PostedFor(f, key, steps + [last], from, t.clock, |t.log|, t.log[|s.log|])
  {
    hide Began, Message;
    if !t.log[|s.log|].Collection? {
      var client := s.clients[last.c];
      assert DraftOf(key, steps, from, s.clock, last.c, client);
      BeganGrows(key, steps, last, last.c, client.draft);
      assert Began(key, steps + [last], last.c, client.draft) && from <= client.now <= t.clock;
    }
  }

  lemma {:induction false} RunKeepsDrafted(f: Format, key: string, s: State, steps: seq<Step>)
    requires Sound(f) && key != "" && Initial(key, s)
    ensures Drafted(f, key, steps, s.clock, Run(f, key, s, steps))
    decreases |steps|
  {
    hide Next, ChannelInv, Drafted;
    if steps == [] {
      NothingDrafted(f, key, s);
    } else {
      var n := |steps| - 1;
      assert steps == steps[..n] + [steps[n]];
      RunKeepsDrafted(f, key, s, steps[..n]);
      RunSnoc(f, key, s, steps[..n], steps[n]);
      InitialKeeps(f, key, s);
      RunKeepsChannel(f, key, s, steps[..n]);
      StepKeepsDrafted(f, key, Run(f, key, s, steps[..n]), steps[..n], steps[n], s.clock);
    }
  }

  lemma NothingDrafted(f: Format, key: string, s: State)
    requires Initial(key, s)
    ensures Drafted(f, key, [], s.clock, s) && Run(f, key, s, []) == s
  {}

  predicate MeantFor(recipient: string, reader: string) {
    recipient in {"", "*", reader} || reader == "*"
  }

  lemma MeantIsAddressed(f: Format, d: Draft, version: int, suffix: string, now: int, reader: string)
    ensures Addressed(AsRead(Message(f, d, version, suffix, now)), reader) <==> MeantFor(d.recipient, reader)
  {}

  /** Every message a reader receives is what some client began to send in that run, meant
      for this reader or for everybody, and stamped in the course of it. */
  lemma ReceivedWasBegun(f: Format, key: string, s: State, steps: seq<Step>, k: nat, x: BusMessage)
    requires Sound(f) && key != "" && Initial(key, s) && k in s.consumers
    requires var t := Run(f, key, s, steps + [Poll(k)]);
             |t.log| < PAD_LIMIT && k in t.consumers && x in t.consumers[k].received
    ensures var all := steps + [Poll(k)];
            var t := Run(f, key, s, all);
            exists c, d, version, suffix, now ::
              Began(key, all, c, d) && Delivers(f, d, version, suffix, now, x) && MeantFor(d.recipient, t.consumers[k].address)
              && s.clock <= now <= t.clock
  {
    hide Run, Began, Delivers, Message, AsRead, MeantFor, Addressed;
    var all := steps + [Poll(k)];
    var t := Run(f, key, s, all);
    ExactlyOnce(f, key, s, steps, k);
    RunKeepsDrafted(f, key, s, all);
    var i :| 0 <= i < |t.log| && t.log[i].Posting? && x == AsRead(t.log[i].message);
    var e := t.log[i];
    assert PostedFor(f, key, all, s.clock, t.clock, i + 1, e);
    var d, now :| Began(key, all, e.who, d) && s.clock <= now <= t.clock && e.message == Message(f, d, i + 1, e.suffix, now);
    MessageDelivers(f, d, i + 1, e.suffix, now);
    MeantIsAddressed(f, d, i + 1, e.suffix, now, t.consumers[k].address);
  }

  /** Time stamps read back. */
  ghost predicate Stamps(f: Format) {
    forall t :: f.parse(f.stamp(t)) == Some(t)
  }

  /** A message expires its time to live after its stamp, and not before. */
  lemma ExpiresAfterTtl(f: Format, d: Draft, version: int, suffix: string, now: int, x: BusMessage, at: int)
    requires Stamps(f) && Delivers(f, d, version, suffix, now, x)
    ensures Expired(f, x, at) <==> now + (if d.ttl != 0 then d.ttl else 3600) <= at
  {}

  /** A message that was sent arrives: when the compare-and-swap of a client succeeds, and
      a reader it is meant for polls at any later point of the run, the reader has what
      the client had begun to send, unless its time to live is over by then. */
  lemma SentArrives(f: Format, key: string, s: State, a: seq<Step>, c: nat, suffix: string, b: seq<Step>, k: nat)
    requires Sound(f) && Stamps(f) && key != "" && Initial(key, s) && k in s.consumers
    requires |Run(f, key, s, a + [CasPost(c, suffix)] + b + [Poll(k)]).log| < PAD_LIMIT
    requires var u := Run(f, key, s, a);
             ClientAt(u, c).Ready? && |Next(f, key, u, CasPost(c, suffix)).log| > |u.log|
    ensures var u, t := Run(f, key, s, a), Run(f, key, s, a + [CasPost(c, suffix)] + b + [Poll(k)]);
            var d, now := u.clients[c].draft, u.clients[c].now;
            && Began(key, a, c, d) && k in t.consumers
            && (MeantFor(d.recipient, t.consumers[k].address) ==>
                  || (exists x :: x in t.consumers[k].received && Delivers(f, d, |u.log| + 1, suffix, now, x))
                  || now + (if d.ttl != 0 then d.ttl else 3600) <= t.horizon)
  {
    hide Run, Next, Began, Delivers, Message, AsRead, MeantFor, Addressed, Expired, ChannelInv;
    var u, won := Run(f, key, s, a), a + [CasPost(c, suffix)];
    var v, t := Run(f, key, s, won), Run(f, key, s, won + b + [Poll(k)]);
    var d, now := u.clients[c].draft, u.clients[c].now;
    RunKeepsDrafted(f, key, s, a);
    assert DraftOf(key, a, s.clock, u.clock, c, u.clients[c]);
    RunSnoc(f, key, s, a, CasPost(c, suffix));
    InitialKeeps(f, key, s);
    RunKeepsChannel(f, key, s, a);
    StepPosts(f, key, u, CasPost(c, suffix));
    CasIsPosting(f, key, u, c, suffix);
    RunOnto(f, key, s, won, b + [Poll(k)]);
    assert won + b + [Poll(k)] == won + (b + [Poll(k)]);
    RunOnlyGrows(f, key, v, b + [Poll(k)]);
    ExactlyOnce(f, key, s, won + b, k);
    var i := |u.log|;
    assert t.log[i] == v.log[i];
    MessageDelivers(f, d, i + 1, suffix, now);
    MeantIsAddressed(f, d, i + 1, suffix, now, t.consumers[k].address);
    ExpiresAfterTtl(f, d, i + 1, suffix, now, AsRead(t.log[i].message), t.horizon);
  }

  lemma CasIsPosting(f: Format, key: string, u: State, c: nat, suffix: string)
    requires ClientAt(u, c).Ready? && |Next(f, key, u, CasPost(c, suffix)).log| > |u.log|
    ensures var log := Next(f, key, u, CasPost(c, suffix)).log; |log| == |u.log| + 1 && log[|u.log|].Posting?
  {}

  lemma {:induction false} RunOnto(f: Format, key: string, s: State, a: seq<Step>, b: seq<Step>)
    ensures Run(f, key, s, a + b) == Run(f, key, Run(f, key, s, a), b)
    decreases |a|
  {
    if a == [] {
      assert a + b == b;
    } else {
      assert (a + b)[1..] == a[1..] + b;
      RunOnto(f, key, Next(f, key, s, a[0]), a[1..], b);
    }
  }
}
