/** What the channel protocol guarantees over every run: no published message is lost or
    reordered by concurrency, and ordered polling delivers each message at most once and
    skips only expired ones. */
module ChannelTheorems {
  import opened Json
  import opened Numerals
  import opened Sorting
  import opened BusFormat
  import opened KsmBus
  import opened ChannelRuns

  // ------------------------------------------------------------------- message ids

  lemma {:induction false} PrefixDecides(p: string, q: string, s: string, t: string)
    requires |p| == |q| && StrLt(p, q)
    ensures StrLt(p + s, q + t)
  {
    var a, b := p + s, q + t;
    assert a[0] == p[0] && b[0] == q[0] && a[1..] == p[1..] + s && b[1..] == q[1..] + t;
    if p[0] == q[0] {
      assert p == [p[0]] + p[1..] && q == [q[0]] + q[1..];
      PrefixDecides(p[1..], q[1..], s, t);
    }
  }

  lemma {:induction false} CommonPrefix(p: string, a: string, b: string)
    requires StrLt(a, b)
    ensures StrLt(p + a, p + b)
  {
    if p == "" {
      assert p + a == a && p + b == b;
    } else {
      CommonPrefix(p[1..], a, b);
      assert (p + a)[1..] == p[1..] + a && (p + b)[1..] == p[1..] + b;
    }
  }

  function Pow10(n: nat): nat {
    if n == 0 then 1 else 10 * Pow10(n - 1)
  }

  lemma {:induction false} DigitsIncrease(a: nat, b: nat, width: nat)
    requires a < b < Pow10(width)
    ensures StrLt(Digits(a, width), Digits(b, width))
  {
    if a / 10 == b / 10 {
      CommonPrefix(Digits(a / 10, width - 1), [DigitChar(a % 10)], [DigitChar(b % 10)]);
    } else {
      DigitsIncrease(a / 10, b / 10, width - 1);
      PrefixDecides(Digits(a / 10, width - 1), Digits(b / 10, width - 1), [DigitChar(a % 10)], [DigitChar(b % 10)]);
    }
  }

  lemma TwentyColumns()
    ensures Pow10(20) == PAD_LIMIT
  {
    assert Pow10(5) == 100_000;
    assert Pow10(10) == 10_000_000_000;
    assert Pow10(15) == 1_000_000_000_000_000;
  }

  /** The number a text of decimal digits stands for. */
  function NumberOf(t: string): int {
    if t == "" then 0 else 10 * NumberOf(t[..|t| - 1]) + (t[|t| - 1] as int - '0' as int)
  }

  lemma {:induction false} DigitsShow(n: nat, width: nat)
    requires n < Pow10(width)
    ensures NumberOf(Digits(n, width)) == n
  {
    if width > 0 {
      DigitsShow(n / 10, width - 1);
      assert Digits(n, width)[..width - 1] == Digits(n / 10, width - 1);
    }
  }

  lemma {:induction false} DecimalShows(n: nat, width: nat)
    ensures NumberOf(Decimal(n)) == n && (n >= Pow10(width) ==> |Decimal(n)| > width)
    decreases n
  {
    if n < 10 {
      assert NumberOf(Decimal(n)[..0]) == 0;
      assert width > 0 ==> Pow10(width) == 10 * Pow10(width - 1) && Pow10(width - 1) >= 1 by { if width > 0 { PowerLeadsWithOne(width - 1); } }
    } else {
      DecimalShows(n / 10, if width > 0 then width - 1 else 0);
      assert Decimal(n)[..|Decimal(n)| - 1] == Decimal(n / 10);
    }
  }

  /** An id is the version in decimal, in at least twenty columns with its sign, a dash and
      the suffix. */
  lemma IdShowsVersion(version: int, suffix: string) returns (t: string)
    ensures MessageId(version, suffix) == (if version < 0 then "-" else "") + t + "-" + suffix
    ensures NumberOf(t) == (if version < 0 then -version else version) && |t| >= if version < 0 then 19 else 20
  {
    hide Digits, Decimal, Pow10, NumberOf;
    TwentyColumns();
    NineteenColumns();
    var n: nat := if version < 0 then -version else version;
    var width := if version < 0 then 19 else 20;
    if n < Pow10(width) {
      t := Digits(n, width);
      DigitsShow(n, width);
    } else {
      t := Decimal(n);
      DecimalShows(n, width);
    }
    assert version >= 0 ==> "" + t == t;
  }

  lemma NineteenColumns()
    ensures Pow10(19) == PAD_LIMIT / 10
  {
    TwentyColumns();
  }

  /** Below 10^20 versions, ids compare as strings the way versions compare as numbers. */
  lemma MessageIdsIncrease(a: nat, b: nat, x: string, y: string)
    requires a < b < PAD_LIMIT
    ensures StrLt(MessageId(a, x), MessageId(b, y))
  {
    TwentyColumns();
    DigitsIncrease(a, b, 20);
    PrefixDecides(Digits(a, 20), Digits(b, 20), "-" + x, "-" + y);
    assert MessageId(a, x) == Digits(a, 20) + ("-" + x);
    assert MessageId(b, y) == Digits(b, 20) + ("-" + y);
  }

  lemma {:induction false} PowerLeadsWithOne(n: nat)
    ensures Pow10(n) >= 1 && Decimal(Pow10(n)) != "" && Decimal(Pow10(n))[0] == '1'
  {
    if n > 0 {
      PowerLeadsWithOne(n - 1);
      assert Pow10(n) / 10 == Pow10(n - 1);
    }
  }

  lemma {:induction false} NinesLeadWithNine(width: nat)
    requires width > 0
    ensures Pow10(width) >= 1 && Digits(Pow10(width) - 1, width)[0] == '9'
  {
    PowerLeadsWithOne(width - 1);
    var p := Pow10(width - 1);
    assert (10 * p - 1) / 10 == p - 1;
    if width > 1 {
      NinesLeadWithNine(width - 1);
    }
  }

  /** The bound is tight: version 10^20 sorts before the version it follows. */
  lemma PaddingOverflows(x: string, y: string)
    ensures StrLt(MessageId(PAD_LIMIT, y), MessageId(PAD_LIMIT - 1, x))
  {
    hide Pow10, Decimal;
    TwentyColumns();
    PowerLeadsWithOne(20);
    NinesLeadWithNine(20);
    var big, small := MessageId(PAD_LIMIT, y), MessageId(PAD_LIMIT - 1, x);
    assert big[0] == '1' && small[0] == '9';
  }

  // -------------------------------------------------------------- nothing is lost

  lemma InitialKeeps(f: Format, key: string, s: State)
    requires Initial(key, s)
    ensures ChannelInv(f, key, s)
  {}

  lemma {:induction false} RunKeepsChannel(f: Format, key: string, s: State, steps: seq<Step>)
    requires Sound(f) && key != "" && ChannelInv(f, key, s)
    ensures ChannelInv(f, key, Run(f, key, s, steps))
    decreases |steps|
  {
    if steps != [] {
      StepKeepsChannel(f, key, s, steps[0]);
      RunKeepsChannel(f, key, Next(f, key, s, steps[0]), steps[1..]);
    }
  }

  /** In every interleaving the channel holds exactly what was posted and not collected,
      in order, and its version counts the successful writes. */
  lemma ChannelIsItsLog(f: Format, key: string, s: State, steps: seq<Step>)
    requires Sound(f) && key != "" && Initial(key, s)
    ensures var t := Run(f, key, s, steps);
            Load(f, t.custom, key) == Channel(AsDicts(f, Live(f, t.log)), |t.log|)
  {
    InitialKeeps(f, key, s);
    RunKeepsChannel(f, key, s, steps);
  }

  ghost predicate Increasing(ms: seq<BusMessage>) {
    forall i, j | 0 <= i < j < |ms| :: StrLt(ms[i].id, ms[j].id)
  }

  /** Not collected after position `i`. */
  ghost predicate Survives(f: Format, log: seq<LogEntry>, i: nat)
    requires i < |log| && log[i].Posting?
  {
    forall j | i < j < |log| && log[j].Collection? :: !Expired(f, AsRead(log[i].message), log[j].cutoff)
  }

  lemma {:induction false} UnexpiredMembers(f: Format, ms: seq<BusMessage>, cutoff: int)
    ensures forall m :: m in Unexpired(f, ms, cutoff) <==> m in ms && !Expired(f, AsRead(m), cutoff)
    ensures Increasing(ms) ==> Increasing(Unexpired(f, ms, cutoff))
  {
    if ms != [] {
      UnexpiredMembers(f, ms[1..], cutoff);
      var rest := Unexpired(f, ms[1..], cutoff);
      assert ms == [ms[0]] + ms[1..];
      if Increasing(ms) {
        assert Increasing(ms[1..]);
        forall j | 0 <= j < |rest| ensures StrLt(ms[0].id, rest[j].id) {
          assert rest[j] in rest;
          assert rest[j] in ms[1..];
          var i :| 0 <= i < |ms[1..]| && ms[1..][i] == rest[j];
          assert ms[i + 1] == rest[j];
        }
      }
    }
  }

  lemma LogIdsIncrease(log: seq<LogEntry>, i: nat, j: nat)
    requires LogIds(log) && |log| < PAD_LIMIT
    requires i < j < |log| && log[i].Posting? && log[j].Posting?
    ensures StrLt(log[i].message.id, log[j].message.id)
  {
    MessageIdsIncrease(i + 1, j + 1, log[i].suffix, log[j].suffix);
  }

  ghost predicate SurvivingPost(f: Format, log: seq<LogEntry>, m: BusMessage, i: nat) {
    i < |log| && log[i].Posting? && log[i].message == m && Survives(f, log, i)
  }

  ghost predicate Surviving(f: Format, log: seq<LogEntry>, m: BusMessage) {
    exists i :: SurvivingPost(f, log, m, i)
  }

  lemma SurvivorOf(f: Format, log: seq<LogEntry>, m: BusMessage)
    ensures Surviving(f, log, m)
       <==> exists i :: 0 <= i < |log| && log[i].Posting? && log[i].message == m && Survives(f, log, i)
  {
    if i :| 0 <= i < |log| && log[i].Posting? && log[i].message == m && Survives(f, log, i) {
      assert SurvivingPost(f, log, m, i);
    }
  }

  /** `Live` in plain terms: the surviving posts, in increasing order of id. */
  lemma {:induction false} LiveIsTheSurvivors(f: Format, log: seq<LogEntry>)
    requires LogIds(log) && |log| < PAD_LIMIT
    ensures Increasing(Live(f, log))
    ensures forall m :: m in Live(f, log) <==>
              exists i :: 0 <= i < |log| && log[i].Posting? && log[i].message == m && Survives(f, log, i)
  {
    if log != [] {
      var n := |log| - 1;
      var before := log[..n];
      var last := log[n];
      assert LogIds(before);
      LiveIsTheSurvivors(f, before);
      var ms := Live(f, before);
      assert forall i | 0 <= i < n :: before[i] == log[i];
      if last.Posting? {
        forall j | 0 <= j < |ms| ensures StrLt(ms[j].id, last.message.id) {
          assert ms[j] in ms;
          var i :| 0 <= i < n && before[i].Posting? && before[i].message == ms[j] && Survives(f, before, i);
          LogIdsIncrease(log, i, n);
        }
      } else {
        UnexpiredMembers(f, ms, last.cutoff);
      }
      forall m ensures m in Live(f, log) <==>
                         exists i :: 0 <= i < |log| && log[i].Posting? && log[i].message == m && Survives(f, log, i) {
        SurvivorOf(f, before, m);
        SurvivorsStep(f, log, m);
        SurvivorOf(f, log, m);
      }
    }
  }

  /** A post survives a longer log when it survived before and the last entry spares it. */
  lemma SurvivesStep(f: Format, log: seq<LogEntry>, i: nat)
    requires i < |log| - 1 && log[i].Posting?
    ensures var n := |log| - 1;
            && log[..n][i] == log[i]
            && (Survives(f, log, i) <==>
                  Survives(f, log[..n], i) && (log[n].Collection? ==> !Expired(f, AsRead(log[i].message), log[n].cutoff)))
  {
    hide Expired, AsRead;
    var n := |log| - 1;
    var before := log[..n];
    assert forall j | 0 <= j < n :: before[j] == log[j];
  }

  lemma SurvivorsStep(f: Format, log: seq<LogEntry>, m: BusMessage)
    requires log != [] && (m in Live(f, log[..|log| - 1]) <==> Surviving(f, log[..|log| - 1], m))
    ensures m in Live(f, log) <==> Surviving(f, log, m)
  {
    var n := |log| - 1;
    UnexpiredMembers(f, Live(f, log[..n]), if log[n].Collection? then log[n].cutoff else 0);
    if m in Live(f, log) { LiveSurvives(f, log, m); }
    if Surviving(f, log, m) { SurvivingLives(f, log, m); }
  }

  lemma LiveSurvives(f: Format, log: seq<LogEntry>, m: BusMessage)
    requires log != [] && m in Live(f, log) && (m in Live(f, log[..|log| - 1]) ==> Surviving(f, log[..|log| - 1], m))
    ensures Surviving(f, log, m)
  {
    hide Expired, AsRead, Survives;
    var n := |log| - 1;
    UnexpiredMembers(f, Live(f, log[..n]), if log[n].Collection? then log[n].cutoff else 0);
    LastSurvives(f, log);
    if log[n].Posting? && m == log[n].message {
      assert SurvivingPost(f, log, m, n);
    } else {
      var i :| SurvivingPost(f, log[..n], m, i);
      SurvivesStep(f, log, i);
      assert SurvivingPost(f, log, m, i);
    }
  }

  lemma SurvivingLives(f: Format, log: seq<LogEntry>, m: BusMessage)
    requires log != [] && Surviving(f, log, m) && (Surviving(f, log[..|log| - 1], m) ==> m in Live(f, log[..|log| - 1]))
    ensures m in Live(f, log)
  {
    hide Expired, AsRead, Survives;
    var n := |log| - 1;
    UnexpiredMembers(f, Live(f, log[..n]), if log[n].Collection? then log[n].cutoff else 0);
    var i: nat :| SurvivingPost(f, log, m, i);
    if i < n {
      SurvivesStep(f, log, i);
      assert SurvivingPost(f, log[..n], m, i);
    }
  }

  lemma LastSurvives(f: Format, log: seq<LogEntry>)
    requires log != []
    ensures log[|log| - 1].Posting? ==> Survives(f, log, |log| - 1)
  {}

  /** A refused compare-and-swap means that somebody else wrote since the read. */
  lemma RefusedMeansBeaten(f: Format, key: string, s: State, steps: seq<Step>, c: nat)
    requires Sound(f) && key != "" && Initial(key, s)
    requires var t := Run(f, key, s, steps);
             ClientAt(t, c).Ready? && !PublishOutcome(f, t.custom, key, Some(t.clients[c].version)).Written?
    ensures var t := Run(f, key, s, steps);
            && 0 <= t.clients[c].version < |t.log|
            && forall i | t.clients[c].version <= i < |t.log| :: t.log[i].who != c
  {
    InitialKeeps(f, key, s);
    RunKeepsChannel(f, key, s, steps);
    var t := Run(f, key, s, steps);
    assert ClientInv(f, t.log, c, t.clients[c]);
    LoadedVersion(f, t.custom, key);
  }

  /** A call that loses its last try has written nothing since it began, and each of its
      tries lost to a different write of somebody else. */
  lemma GivingUpWritesNothing(f: Format, key: string, s: State, steps: seq<Step>, c: nat, suffix: string)
    requires Sound(f) && key != "" && Initial(key, s)
    requires var t := Run(f, key, s, steps);
             && ClientAt(t, c).Ready?
             && !PublishOutcome(f, t.custom, key, Some(t.clients[c].version)).Written?
    ensures var t := Run(f, key, s, steps);
            var client := t.clients[c];
            && Next(f, key, t, CasPost(c, suffix)).custom == t.custom
            && (forall i | client.started <= i < |t.log| :: t.log[i].who != c)
            && |t.log| - client.started >= client.beaten + 1
  {
    RefusedMeansBeaten(f, key, s, steps, c);
    InitialKeeps(f, key, s);
    RunKeepsChannel(f, key, s, steps);
    var t := Run(f, key, s, steps);
    assert ClientInv(f, t.log, c, t.clients[c]);
    CasPostLoses(f, key, t, c, suffix);
  }

  // ------------------------------------------------------------------------ polling

  /** What a poll selects, on messages instead of dicts. */
  function Shown(f: Format, ms: seq<BusMessage>, since: Option<string>, address: string, now: int): seq<BusMessage> {
    if ms == [] then []
    else (if Visible(f, AsRead(ms[0]), since, address, now) then [AsRead(ms[0])] else [])
         + Shown(f, ms[1..], since, address, now)
  }

  lemma {:induction false} SelectIsShown(f: Format, ms: seq<BusMessage>, since: Option<string>, address: string, now: int)
    requires Sound(f)
    ensures Select(f, AsDicts(f, ms), since, address, now) == Shown(f, ms, since, address, now)
  {
    if ms != [] {
      SelectIsShown(f, ms[1..], since, address, now);
      assert AsDicts(f, ms)[1..] == AsDicts(f, ms[1..]);
      assert f.unpack(f.pack(ms[0])) == AsRead(ms[0]);
    }
  }

  lemma {:induction false} ShownMembers(f: Format, ms: seq<BusMessage>, since: Option<string>, address: string, now: int)
    ensures forall x :: x in Shown(f, ms, since, address, now)
              <==> Visible(f, x, since, address, now) && exists m :: m in ms && AsRead(m) == x
    ensures Increasing(ms) ==> Increasing(Shown(f, ms, since, address, now))
  {
    if ms != [] {
      ShownMembers(f, ms[1..], since, address, now);
      var rest := Shown(f, ms[1..], since, address, now);
      assert ms == [ms[0]] + ms[1..];
      forall x ensures x in Shown(f, ms, since, address, now)
                 <==> Visible(f, x, since, address, now) && exists m :: m in ms && AsRead(m) == x {
        if m :| m in ms && AsRead(m) == x {
          assert m == ms[0] || m in ms[1..];
        }
        assert ms[0] in ms;
      }
      if Increasing(ms) {
        assert Increasing(ms[1..]);
        forall j | 0 <= j < |rest| ensures StrLt(AsRead(ms[0]).id, rest[j].id) {
          assert rest[j] in rest;
          var m :| m in ms[1..] && AsRead(m) == rest[j];
          var i :| 0 <= i < |ms[1..]| && ms[1..][i] == m;
          assert ms[i + 1] == m;
        }
      }
    }
  }

  lemma IncreasingIsSorted(ms: seq<BusMessage>)
    requires Increasing(ms)
    ensures SortBy(ms, IdKey) == ms
  {
    SortOfSorted(ms, IdKey);
  }

  ghost predicate ConsumerInv(f: Format, log: seq<LogEntry>, horizon: int, r: Consumer) {
    && r.seen <= |log|
    && Increasing(r.received)
    && r.last == (if r.received == [] then None else Some(r.received[|r.received| - 1].id))
    && (forall x | x in r.received :: Sent(log, r, x))
    && (forall i | 0 <= i < r.seen && log[i].Posting? :: Settled(f, log[i].message, horizon, r))
  }

  /** Received messages were posted, to this reader. */
  ghost predicate Sent(log: seq<LogEntry>, r: Consumer, x: BusMessage)
    requires r.seen <= |log|
  {
    Addressed(x, r.address) && exists i :: 0 <= i < r.seen && log[i].Posting? && x == AsRead(log[i].message)
  }

  /** A message for this reader was received, or had expired. */
  ghost predicate Settled(f: Format, m: BusMessage, horizon: int, r: Consumer) {
    Addressed(AsRead(m), r.address) ==> AsRead(m) in r.received || Expired(f, AsRead(m), horizon)
  }

  ghost predicate PollInv(f: Format, s: State) {
    forall k | k in s.consumers :: ConsumerInv(f, s.log, s.horizon, s.consumers[k])
  }

  lemma ConsumerInvGrows(f: Format, a: seq<LogEntry>, b: seq<LogEntry>, h: int, h': int, r: Consumer)
    requires ConsumerInv(f, a, h, r) && a <= b && h <= h'
    ensures ConsumerInv(f, b, h', r)
  {
    forall x | x in r.received ensures Sent(b, r, x) {
      assert Sent(a, r, x);
      var i :| 0 <= i < r.seen && a[i].Posting? && x == AsRead(a[i].message);
      assert b[i] == a[i];
    }
    forall i | 0 <= i < r.seen && b[i].Posting? ensures Settled(f, b[i].message, h', r) {
      assert b[i] == a[i];
      assert Settled(f, a[i].message, h, r);
    }
  }

  lemma StepOnlyGrows(f: Format, key: string, s: State, step: Step)
    ensures var t := Next(f, key, s, step); s.log <= t.log && s.horizon <= t.horizon
    ensures !step.Poll? ==> Next(f, key, s, step).consumers == s.consumers
  {}

  function PollOf(f: Format, s: State, r: Consumer): seq<BusMessage> {
    Shown(f, Live(f, s.log), r.last, r.address, s.clock)
  }

  lemma PollReturns(f: Format, key: string, s: State, k: nat)
    requires Sound(f) && ChannelInv(f, key, s) && |s.log| < PAD_LIMIT && k in s.consumers
    ensures var r := s.consumers[k];
            var out := PollOf(f, s, r);
            && Increasing(out)
            && Next(f, key, s, Poll(k)).consumers
               == s.consumers[k := Consumer(r.address, if out == [] then r.last else Some(out[|out| - 1].id),
                                            r.received + out, |s.log|)]
  {
    hide Expired, AsRead, Visible, Live, Shown, LogIds, ClientInv, Select, SortBy;
    var r := s.consumers[k];
    SelectIsShown(f, Live(f, s.log), r.last, r.address, s.clock);
    LiveIsTheSurvivors(f, s.log);
    ShownMembers(f, Live(f, s.log), r.last, r.address, s.clock);
    IncreasingIsSorted(PollOf(f, s, r));
  }

  lemma PollSettles(f: Format, key: string, s: State, k: nat, i: nat)
    requires Sound(f) && ChannelInv(f, key, s) && |s.log| < PAD_LIMIT && k in s.consumers
    requires ConsumerInv(f, s.log, s.horizon, s.consumers[k])
    requires i < |s.log| && s.log[i].Posting?
    ensures var r := s.consumers[k];
            Settled(f, s.log[i].message, s.horizon, r.(received := r.received + PollOf(f, s, r)))
  {
    hide Live, Shown, Load, ClientInv;
    var r := s.consumers[k];
    var x := AsRead(s.log[i].message);
    LiveIsTheSurvivors(f, s.log);
    ShownMembers(f, Live(f, s.log), r.last, r.address, s.clock);
    if Addressed(x, r.address) && !Expired(f, x, s.horizon) {
      assert Survives(f, s.log, i);
      assert s.log[i].message in Live(f, s.log);
      if i < r.seen {
        assert Settled(f, s.log[i].message, s.horizon, r);
      } else if r.last.Some? {
        var y := r.received[|r.received| - 1];
        assert y in r.received && Sent(s.log, r, y);
        var j :| 0 <= j < r.seen && s.log[j].Posting? && y == AsRead(s.log[j].message);
        LogIdsIncrease(s.log, j, i);
        if StrLe(x.id, y.id) { StrLeAntisymmetric(x.id, y.id); }
        assert Visible(f, x, r.last, r.address, s.clock);
      }
    }
  }

  /** The reader of a poll, with what it returned. */
  lemma PolledReaderKeeps(f: Format, key: string, s: State, k: nat)
    requires Sound(f) && ChannelInv(f, key, s) && PollInv(f, s) && |s.log| < PAD_LIMIT && k in s.consumers
    ensures ConsumerInv(f, s.log, s.horizon, Next(f, key, s, Poll(k)).consumers[k])
  {
    var r := s.consumers[k];
    var out := PollOf(f, s, r);
    PollReturns(f, key, s, k);
    var r' := Next(f, key, s, Poll(k)).consumers[k];
    forall x | x in out ensures Sent(s.log, r', x) { ShownWasSent(f, s, r, r', x); }
    forall x | x in r.received ensures Sent(s.log, r', x) {
      assert Sent(s.log, r, x);
    }
    forall i | 0 <= i < |s.log| && s.log[i].Posting? ensures Settled(f, s.log[i].message, s.horizon, r') {
      PollSettles(f, key, s, k, i);
    }
    assert Increasing(r.received + out) by {
      ShownMembers(f, Live(f, s.log), r.last, r.address, s.clock);
      ConcatIncreasing(f, r, out, s.clock);
    }
  }

  lemma PollKeeps(f: Format, key: string, s: State, k: nat)
    requires Sound(f) && ChannelInv(f, key, s) && PollInv(f, s) && |s.log| < PAD_LIMIT && k in s.consumers
    ensures PollInv(f, Next(f, key, s, Poll(k)))
  {
    hide ConsumerInv, ChannelInv, Shown, Live;
    PollReturns(f, key, s, k);
    PolledReaderKeeps(f, key, s, k);
  }

  lemma ShownWasSent(f: Format, s: State, r: Consumer, r': Consumer, x: BusMessage)
    requires LogIds(s.log) && |s.log| < PAD_LIMIT
    requires x in PollOf(f, s, r) && r'.address == r.address && r'.seen == |s.log|
    ensures Sent(s.log, r', x)
  {
    LiveIsTheSurvivors(f, s.log);
    ShownMembers(f, Live(f, s.log), r.last, r.address, s.clock);
    var m :| m in Live(f, s.log) && AsRead(m) == x;
    var i :| 0 <= i < |s.log| && s.log[i].Posting? && s.log[i].message == m && Survives(f, s.log, i);
  }

  lemma ConcatIncreasing(f: Format, r: Consumer, out: seq<BusMessage>, now: int)
    requires Increasing(r.received) && Increasing(out)
    requires r.last == (if r.received == [] then None else Some(r.received[|r.received| - 1].id))
    requires forall x | x in out :: Visible(f, x, r.last, r.address, now)
    ensures Increasing(r.received + out)
  {
    var all, n := r.received + out, |r.received|;
    forall i, j | 0 <= i < j < |all| ensures StrLt(all[i].id, all[j].id) {
      if i < n <= j {
        assert all[j] in out;
        StrLeTotal(all[j].id, r.last.value);
        StrLeReflexive(all[i].id);
        StrLeTransitive(all[i].id, r.last.value, all[j].id);
      }
    }
  }

  lemma {:induction false} RunKeepsPolling(f: Format, key: string, s: State, steps: seq<Step>)
    requires Sound(f) && key != "" && ChannelInv(f, key, s) && PollInv(f, s)
    requires |Run(f, key, s, steps).log| < PAD_LIMIT
    ensures PollInv(f, Run(f, key, s, steps))
    decreases |steps|
  {
    if steps != [] {
      var t := Next(f, key, s, steps[0]);
      RunOnlyGrows(f, key, t, steps[1..]);
      StepOnlyGrows(f, key, s, steps[0]);
      StepKeepsChannel(f, key, s, steps[0]);
      if steps[0].Poll? && steps[0].k in s.consumers {
        PollKeeps(f, key, s, steps[0].k);
      } else {
        forall k | k in t.consumers ensures ConsumerInv(f, t.log, t.horizon, t.consumers[k]) {
          ConsumerInvGrows(f, s.log, t.log, s.horizon, t.horizon, s.consumers[k]);
        }
      }
      RunKeepsPolling(f, key, t, steps[1..]);
    }
  }

  /** History is append-only. */
  lemma {:induction false} RunOnlyGrows(f: Format, key: string, s: State, steps: seq<Step>)
    ensures s.log <= Run(f, key, s, steps).log && s.horizon <= Run(f, key, s, steps).horizon
    decreases |steps|
  {
    if steps != [] {
      StepOnlyGrows(f, key, s, steps[0]);
      RunOnlyGrows(f, key, Next(f, key, s, steps[0]), steps[1..]);
    }
  }

  /** Exactly-once ordered polling.  Over every run with fewer than 10^20 channel writes,
      a reader that resumes from its last id receives strictly increasing ids (so nothing
      twice), only messages that were posted to it, and once it polls, every message
      posted to it so far has been received unless it had expired by `horizon`, the
      latest moment reached by the clock or given to garbage collection as its cutoff. */
  lemma ExactlyOnce(f: Format, key: string, s: State, steps: seq<Step>, k: nat)
    requires Sound(f) && key != "" && Initial(key, s) && k in s.consumers
    requires |Run(f, key, s, steps + [Poll(k)]).log| < PAD_LIMIT
    ensures var t := Run(f, key, s, steps + [Poll(k)]);
            k in t.consumers &&
            var r := t.consumers[k];
            && Increasing(r.received)
            && (forall x | x in r.received ::
                  Addressed(x, r.address)
                  && exists i :: 0 <= i < |t.log| && t.log[i].Posting? && x == AsRead(t.log[i].message))
            && (forall i | 0 <= i < |t.log| && t.log[i].Posting? ::
                  Addressed(AsRead(t.log[i].message), r.address) ==>
                    AsRead(t.log[i].message) in r.received || Expired(f, AsRead(t.log[i].message), t.horizon))
  {
    hide Expired, AsRead, ChannelInv;
    InitialKeeps(f, key, s);
    RunSnoc(f, key, s, steps, Poll(k));
    var u := Run(f, key, s, steps);
    var t := Next(f, key, u, Poll(k));
    RunKeepsChannel(f, key, s, steps);
    RunKeepsPolling(f, key, s, steps);
    ConsumersStay(f, key, s, steps);
    PollReturns(f, key, u, k);
    PollKeeps(f, key, u, k);
    var r := t.consumers[k];
    assert ConsumerInv(f, t.log, t.horizon, r) && r.seen == |t.log|;
    forall x | x in r.received ensures exists i :: 0 <= i < |t.log| && t.log[i].Posting? && x == AsRead(t.log[i].message) {
      assert Sent(t.log, r, x);
    }
    forall i | 0 <= i < |t.log| && t.log[i].Posting? ensures Settled(f, t.log[i].message, t.horizon, r) {}
  }

  lemma {:induction false} RunSnoc(f: Format, key: string, s: State, steps: seq<Step>, last: Step)
    ensures Run(f, key, s, steps + [last]) == Next(f, key, Run(f, key, s, steps), last)
    decreases |steps|
  {
    var all := steps + [last];
    if steps == [] {
      assert all[1..] == [];
    } else {
      assert all[0] == steps[0] && all[1..] == steps[1..] + [last];
      RunSnoc(f, key, Next(f, key, s, steps[0]), steps[1..], last);
    }
  }

  lemma {:induction false} ConsumersStay(f: Format, key: string, s: State, steps: seq<Step>)
    ensures Run(f, key, s, steps).consumers.Keys == s.consumers.Keys
    decreases |steps|
  {
    if steps != [] {
      ConsumersStay(f, key, Next(f, key, s, steps[0]), steps[1..]);
    }
  }

  /** Garbage collection is invisible to every poll at or after its cutoff. */
  lemma {:induction false} GcIsInvisible(f: Format, messages: seq<Dict>, cutoff: int,
                                         since: Option<string>, consumer: string, now: int)
    requires cutoff <= now
    ensures Polled(f, Kept(f, messages, cutoff), since, consumer, now) == Polled(f, messages, since, consumer, now)
  {
    KeptSelectsAlike(f, messages, cutoff, since, consumer, now);
  }

  lemma {:induction false} KeptSelectsAlike(f: Format, messages: seq<Dict>, cutoff: int,
                                            since: Option<string>, consumer: string, now: int)
    requires cutoff <= now
    ensures Select(f, Kept(f, messages, cutoff), since, consumer, now) == Select(f, messages, since, consumer, now)
  {
    if messages != [] {
      KeptSelectsAlike(f, messages[1..], cutoff, since, consumer, now);
      var kept := Kept(f, messages, cutoff);
      if Expired(f, f.unpack(messages[0]), cutoff) {
        assert SelectOne(f, messages[0], since, consumer, now) == [];
        assert kept == Kept(f, messages[1..], cutoff);
      } else {
        assert kept[0] == messages[0] && kept[1..] == Kept(f, messages[1..], cutoff);
      }
    }
  }
}
