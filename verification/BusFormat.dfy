/** How bus values and messages are written to text fields and read back
    (keeper_sdk/secrets/bus.py).  The protocol modules work over any sound `Format`;
    `SourceFormat` is the one the bus uses, and it is sound. */
module BusFormat {
  import opened Json

  /** The library calls the bus goes through: JSON text, timestamps, `str` and `int`. */
  datatype Codec = Codec(
    dumps: Json -> string,
    loads: string -> Option<Json>,
    format: int -> string,
    parse: string -> Option<int>,
    str: Json -> string,
    toInt: Json -> int)

  /** What the bus needs of them: reading back gives what was written. */
  ghost predicate Faithful(c: Codec) {
    && (forall j :: c.loads(c.dumps(j)) == Some(j))
    && (forall t :: c.parse(c.format(t)) == Some(t) && c.format(t) != "")
    && (forall n :: c.toInt(JNum(n)) == n)
  }

  datatype Versioned = Versioned(value: Json, version: int)

  datatype BusMessage = BusMessage(
    id: string, sender: string, recipient: string, subject: string, timestamp: string,
    payload: Json, trace: Json, ttl: int, channel: string)

  datatype Format = Format(
    encode: (Json, int, int) -> string,
    decode: string -> Versioned,
    pack: BusMessage -> Dict,
    unpack: Dict -> BusMessage,
    stamp: int -> string,
    parse: string -> Option<int>)

  ghost predicate Sound(f: Format) {
    && (forall v, n, t :: f.decode(f.encode(v, n, t)) == Versioned(v, n))
    && (forall m :: f.unpack(f.pack(m)) == AsRead(m))
  }

  const SCHEMA := "keeper-sdk.ksm-bus.v1"
  const DEFAULT_CHANNEL := "default"

  /** `_encode_value` */
  function Encode(c: Codec, value: Json, version: int, now: int): string {
    c.dumps(Envelope(c, value, version, now))
  }

  function Envelope(c: Codec, value: Json, version: int, now: int): Json {
    JObj(map["schema" := JStr(SCHEMA), "updated_at" := JStr(c.format(now)),
             "value" := value, "version" := JNum(version)])
  }

  /** `_decode_value` of a text; what is not an envelope reads as version 0. */
  function Decode(c: Codec, text: string): Versioned {
    match c.loads(text)
    case None => Versioned(JStr(text), 0)
    case Some(JObj(d)) =>
      if Get(d, "schema") == JStr(SCHEMA) || ("value" in d && "version" in d) then
        var version := Get(d, "version");
        Versioned(Get(d, "value"), if Truthy(version) then c.toInt(version) else 0)
      else Versioned(JObj(d), 0)
    case Some(other) => Versioned(other, 0)
  }

  lemma EncodeDecode(c: Codec, value: Json, version: int, now: int)
    requires Faithful(c)
    ensures Decode(c, Encode(c, value, version, now)) == Versioned(value, version)
  {
    var doc := Envelope(c, value, version, now);
    assert c.loads(c.dumps(doc)) == Some(doc);
    assert c.toInt(JNum(version)) == version;
  }

  /** `BusMessage.as_dict` */
  function AsDict(m: BusMessage): Dict {
    map["channel" := JStr(m.channel), "id" := JStr(m.id), "payload" := m.payload,
        "recipient" := JStr(m.recipient), "sender" := JStr(m.sender),
        "subject" := JStr(m.subject), "timestamp" := JStr(m.timestamp),
        "trace_id" := m.trace, "ttl_seconds" := JNum(m.ttl)]
  }

  /** `str(data.get(k) or default)` */
  function TextOr(c: Codec, d: Dict, k: string, default: string): string {
    var v := Get(d, k);
    if !Truthy(v) then default else if v.JStr? then v.s else c.str(v)
  }

  /** `BusMessage.from_dict` */
  function FromDict(c: Codec, d: Dict): BusMessage {
    var ttl := Get(d, "ttl_seconds");
    BusMessage(
      TextOr(c, d, "id", ""), TextOr(c, d, "sender", ""), TextOr(c, d, "recipient", "*"),
      TextOr(c, d, "subject", ""), TextOr(c, d, "timestamp", ""), Get(d, "payload"),
      Get(d, "trace_id"), if Truthy(ttl) then c.toInt(ttl) else 3600,
      TextOr(c, d, "channel", DEFAULT_CHANNEL))
  }

  /** What a reader sees of a posted message: a zero time-to-live reads back as an hour,
      an empty recipient as everybody. */
  function AsRead(m: BusMessage): BusMessage {
    m.(recipient := if m.recipient == "" then "*" else m.recipient,
       ttl := if m.ttl == 0 then 3600 else m.ttl,
       channel := if m.channel == "" then DEFAULT_CHANNEL else m.channel)
  }

  lemma MessageRoundTrip(c: Codec, m: BusMessage)
    requires Faithful(c)
    ensures FromDict(c, AsDict(m)) == AsRead(m)
  {
    assert c.toInt(JNum(m.ttl)) == m.ttl;
  }

  function SourceFormat(c: Codec): Format {
    Format((v, n, t) => Encode(c, v, n, t), text => Decode(c, text),
           m => AsDict(m), d => FromDict(c, d), c.format, c.parse)
  }

  /** The bus's own text format loses nothing but the defaults `AsRead` names. */
  lemma SourceFormatIsSound(c: Codec)
    requires Faithful(c)
    ensures Sound(SourceFormat(c))
  {
    var f := SourceFormat(c);
    forall v, n, t ensures f.decode(f.encode(v, n, t)) == Versioned(v, n) { EncodeDecode(c, v, n, t); }
    forall m ensures f.unpack(f.pack(m)) == AsRead(m) { MessageRoundTrip(c, m); }
  }

  // ------------------------------------------------------------------ names on the wire

  /** A text field of a stored dict, with its default for anything Python takes as false. */
  predicate ReadsText(c: Codec, v: Json, default: string, text: string) {
    match v
    case JStr(s) => text == if s != "" then s else default
    case _ => text == if Truthy(v) then c.str(v) else default
  }

  /** Which field of a stored dict each part of a message is read from. */
  lemma ReadByName(c: Codec, d: Dict)
    ensures var m := FromDict(c, d);
            && ReadsText(c, Get(d, "id"), "", m.id) && ReadsText(c, Get(d, "sender"), "", m.sender)
            && ReadsText(c, Get(d, "recipient"), "*", m.recipient) && ReadsText(c, Get(d, "subject"), "", m.subject)
            && ReadsText(c, Get(d, "timestamp"), "", m.timestamp) && ReadsText(c, Get(d, "channel"), "default", m.channel)
            && m.payload == Get(d, "payload") && m.trace == Get(d, "trace_id")
            && m.ttl == if Truthy(Get(d, "ttl_seconds")) then c.toInt(d["ttl_seconds"]) else 3600
  {}

  /** A channel value is stored with its version and moment; what was written any other
      way reads as version 0. */
  lemma StoredValue(c: Codec, value: Json, version: int, now: int, text: string)
    requires Faithful(c)
    ensures c.loads(Encode(c, value, version, now))
         == Some(JObj(map["schema" := JStr("keeper-sdk.ksm-bus.v1"), "updated_at" := JStr(c.format(now)),
                          "value" := value, "version" := JNum(version)]))
    ensures c.loads(text) == None ==> Decode(c, text) == Versioned(JStr(text), 0)
    ensures forall v :: c.loads(text) == Some(v) && (!v.JObj? || (Get(v.fields, "schema") != JStr("keeper-sdk.ksm-bus.v1") && !({"value", "version"} <= v.fields.Keys)))
              ==> Decode(c, text) == Versioned(v, 0)
    ensures forall d :: c.loads(text) == Some(JObj(d)) && {"value", "version"} <= d.Keys
              ==> Decode(c, text) == Versioned(d["value"], if Truthy(d["version"]) then c.toInt(d["version"]) else 0)
  {
    var doc := Envelope(c, value, version, now);
    assert c.loads(c.dumps(doc)) == Some(doc);
  }
}
