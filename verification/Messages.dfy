/**
 Pub/Sub messages and their stream fields (pubsub/message.go), and the retry envelope's hop through
 Redis (pubsub/store.go).
 */
module Messages {
  import opened Common
  import opened Text
  import opened Decimal
  import opened Timestamp

  /** `scheduledAt` is 0 for Go's zero time. Data is text: the envelope carries it as a JSON string. */
  datatype Message = Message(
    key: string, kind: string, data: string, headers: map<string, string>, maxDeliver: int, scheduledAt: int)

  type Fields = map<string, string>

  datatype Entry = Entry(id: string, values: Fields)

  datatype Delivery = Delivery(
    id: string, topic: string, group: string, consumer: string, attempt: int, publishedAt: Stamp,
    message: Message, raw: Fields)

  datatype Envelope = Envelope(
    topic: string, group: string, key: string, kind: string, data: string, headers: map<string, string>,
    maxDeliver: int, attempt: int, publishedAt: string)

  datatype MessageError = ErrInvalidMessage

  const FIELD_KEY := "key"
  const FIELD_TYPE := "type"
  const FIELD_DATA := "data"
  const FIELD_HEADERS := "headers"
  const FIELD_PUBLISHED_AT := "published_at"
  const FIELD_MAX_DELIVER := "max_deliver"
  const FIELD_ATTEMPT := "attempt"

  /** Lua numbers are doubles: integers are exact up to here. */
  const LUA_EXACT: int := 0x20_0000_0000_0000

  /**
   The library codecs: Go's JSON for header maps and envelopes, Redis's cjson for the header map it
   writes back and for the numbers it prints, and time.UTC.
   */
  datatype Codec = Codec(
    headers: map<string, string> -> string,
    luaHeaders: map<string, string> -> string,
    parseHeaders: string -> Option<map<string, string>>,
    envelope: Envelope -> string,
    parseEnvelope: string -> Option<Envelope>,
    luaNumber: int -> string,
    utc: Stamp -> Stamp)
  {
    ghost predicate Lawful() {
      && (forall h {:trigger headers(h)} :: IsTrimmed(headers(h)) && parseHeaders(headers(h)) == Some(h))
      && (forall h {:trigger luaHeaders(h)} :: IsTrimmed(luaHeaders(h)) && parseHeaders(luaHeaders(h)) == Some(h))
      && (forall e {:trigger envelope(e)} :: parseEnvelope(envelope(e)) == Some(e))
      && (forall n {:trigger luaNumber(n)} :: 0 <= n <= LUA_EXACT ==> luaNumber(n) == Itoa(n))
      && (forall t {:trigger utc(t)} :: utc(t).offset == 0 && (ValidStamp(t) && t.offset == 0 ==> utc(t) == t))
    }
  }

  /** Text without surrounding white space, and not empty. */
  predicate IsTrimmed(s: string) {
    s != "" && !IsSpace(s[0]) && !IsSpace(s[|s| - 1])
  }

  // ----- Validate, messageFieldsWithAttempt, decodeEntry

  predicate Valid(m: Message) {
    && (TrimSpace(m.kind) != "" || m.data != "")
    && m.maxDeliver >= 0
    && m.scheduledAt == 0
  }

  function EffectiveMax(m: Message, default: int): int {
    if m.maxDeliver <= 0 then default else m.maxDeliver
  }

  /** The seven fields of a stream entry. */
  function MakeFields(
      key: string, kind: string, data: string, headers: string, publishedAt: string, maxDeliver: string,
      attempt: string): Fields
  {
    map[
      FIELD_KEY := key, FIELD_TYPE := kind, FIELD_DATA := data, FIELD_HEADERS := headers,
      FIELD_PUBLISHED_AT := publishedAt, FIELD_MAX_DELIVER := maxDeliver, FIELD_ATTEMPT := attempt]
  }

  function EncodeFields(
      c: Codec, m: Message, publishedAt: Stamp, default: int, attempt: int): Result<Fields, MessageError>
    requires ValidStamp(c.utc(publishedAt))
  {
    if !Valid(m) || attempt <= 0 then Err(ErrInvalidMessage)
    else Ok(MakeFields(m.key, m.kind, m.data, c.headers(m.headers), Format(c.utc(publishedAt)),
                       Itoa(EffectiveMax(m, default)), Itoa(attempt)))
  }

  /** A missing field reads as the empty string. */
  function Get(f: Fields, name: string): string {
    if name in f then f[name] else ""
  }

  function DecodeAttempt(f: Fields): Option<int> {
    var raw := TrimSpace(Get(f, FIELD_ATTEMPT));
    if raw == "" then Some(1)
    else match Atoi(raw)
      case Some(n) => if n <= 0 then None else Some(n)
      case None => None
  }

  function DecodeMaxDeliver(f: Fields): Option<int> {
    match Atoi(TrimSpace(Get(f, FIELD_MAX_DELIVER)))
    case Some(n) => if n < 0 then None else Some(n)
    case None => None
  }

  function DecodeHeaders(c: Codec, f: Fields): Option<map<string, string>> {
    var raw := TrimSpace(Get(f, FIELD_HEADERS));
    if raw == "" then Some(map[]) else c.parseHeaders(raw)
  }

  function Decode(c: Codec, topic: string, group: string, consumer: string, e: Entry): Result<Delivery, MessageError> {
    if e.id == "" then Err(ErrInvalidMessage)
    else match (DecodeMaxDeliver(e.values), DecodeAttempt(e.values),
                Parse(TrimSpace(Get(e.values, FIELD_PUBLISHED_AT))), DecodeHeaders(c, e.values))
      case (Some(max), Some(attempt), Some(at), Some(headers)) =>
        var m := Message(
          Get(e.values, FIELD_KEY), Get(e.values, FIELD_TYPE), Get(e.values, FIELD_DATA), headers, max, 0);
        Ok(Delivery(e.id, topic, group, consumer, attempt, at, m, e.values))
      case _ => Err(ErrInvalidMessage)
  }

  // ----- Round trips

  lemma ItoaIsTrimmed(n: int)
    ensures IsTrimmed(Itoa(n))
  {
    var body := NatText(if n < 0 then -n else n);
    assert IsDigit(body[0]) && IsDigit(body[|body| - 1]);
  }

  /** The numbers of an entry: an attempt is at least 1 and defaults to 1, a limit is at least 0, both fit an int. */
  lemma NumbersAreRead(f: Fields, n: int)
    ensures DecodeAttempt(f[FIELD_ATTEMPT := Itoa(n)]) == if 1 <= n <= INT64_MAX then Some(n) else None
    ensures DecodeMaxDeliver(f[FIELD_MAX_DELIVER := Itoa(n)]) == if 0 <= n <= INT64_MAX then Some(n) else None
    ensures FIELD_ATTEMPT !in f ==> DecodeAttempt(f) == Some(1)
    ensures FIELD_MAX_DELIVER !in f ==> DecodeMaxDeliver(f) == None
  {
    ItoaIsTrimmed(n);
    TrimIsIdentity(Itoa(n));
    AtoiInvertsItoa(n);
  }

  lemma FormatIsTrimmed(t: Stamp)
    requires ValidStamp(t)
    ensures IsTrimmed(Format(t))
  {
    var clock, zone := FormatClock(t), FormatZone(t.offset);
    assert clock[0] == Fixed(t.year, 4)[0] && IsDigit(clock[0]);
    assert !IsSpace(zone[|zone| - 1]) by {
      if t.offset != 0 {
        var m := if t.offset < 0 then -t.offset else t.offset;
        assert zone[|zone| - 1] == Fixed(m % 60, 2)[1];
        assert IsDigit(Fixed(m % 60, 2)[1]);
      }
    }
    var s := Format(t);
    assert s[|s| - 1] == zone[|zone| - 1];
  }

  lemma NumbersDecode(f: Fields, max: int, attempt: int, at: Stamp)
    requires ValidStamp(at) && IsInt64(max) && max >= 0 && IsInt64(attempt) && attempt > 0
    requires Get(f, FIELD_MAX_DELIVER) == Itoa(max) && Get(f, FIELD_ATTEMPT) == Itoa(attempt)
    requires Get(f, FIELD_PUBLISHED_AT) == Format(at)
    ensures DecodeMaxDeliver(f) == Some(max) && DecodeAttempt(f) == Some(attempt)
    ensures Parse(TrimSpace(Get(f, FIELD_PUBLISHED_AT))) == Some(at)
  {
    ItoaIsTrimmed(max);
    ItoaIsTrimmed(attempt);
    FormatIsTrimmed(at);
    TrimIsIdentity(Itoa(max));
    TrimIsIdentity(Itoa(attempt));
    TrimIsIdentity(Format(at));
    AtoiInvertsItoa(max);
    AtoiInvertsItoa(attempt);
    ParseInvertsFormat(at);
  }

  lemma HeadersDecode(c: Codec, f: Fields, headers: map<string, string>)
    requires IsTrimmed(Get(f, FIELD_HEADERS)) && c.parseHeaders(Get(f, FIELD_HEADERS)) == Some(headers)
    ensures DecodeHeaders(c, f) == Some(headers)
  {
    TrimIsIdentity(Get(f, FIELD_HEADERS));
  }

  /** Fields that carry the given numbers, time and headers decode to them, whoever wrote them. */
  lemma FieldsDecode(c: Codec, f: Fields, max: int, attempt: int, at: Stamp, headers: map<string, string>)
    requires ValidStamp(at) && IsInt64(max) && max >= 0 && IsInt64(attempt) && attempt > 0
    requires Get(f, FIELD_MAX_DELIVER) == Itoa(max) && Get(f, FIELD_ATTEMPT) == Itoa(attempt)
    requires Get(f, FIELD_PUBLISHED_AT) == Format(at)
    requires IsTrimmed(Get(f, FIELD_HEADERS)) && c.parseHeaders(Get(f, FIELD_HEADERS)) == Some(headers)
    ensures DecodeMaxDeliver(f) == Some(max) && DecodeAttempt(f) == Some(attempt)
    ensures Parse(TrimSpace(Get(f, FIELD_PUBLISHED_AT))) == Some(at)
    ensures DecodeHeaders(c, f) == Some(headers)
  {
    NumbersDecode(f, max, attempt, at);
    HeadersDecode(c, f, headers);
  }

  lemma FieldsAreDistinct(
      key: string, kind: string, data: string, headers: string, publishedAt: string, maxDeliver: string,
      attempt: string)
    ensures
      var f := MakeFields(key, kind, data, headers, publishedAt, maxDeliver, attempt);
      && Get(f, FIELD_KEY) == key && Get(f, FIELD_TYPE) == kind && Get(f, FIELD_DATA) == data
      && Get(f, FIELD_HEADERS) == headers && Get(f, FIELD_PUBLISHED_AT) == publishedAt
      && Get(f, FIELD_MAX_DELIVER) == maxDeliver && Get(f, FIELD_ATTEMPT) == attempt
  {
    assert |FIELD_KEY| == 3 && |FIELD_TYPE| == 4 && |FIELD_DATA| == 4 && FIELD_TYPE[0] != FIELD_DATA[0];
    assert |FIELD_HEADERS| == 7 && |FIELD_ATTEMPT| == 7 && FIELD_HEADERS[0] != FIELD_ATTEMPT[0];
    assert |FIELD_PUBLISHED_AT| == 12 && |FIELD_MAX_DELIVER| == 11;
  }

  /** Fields that carry a message decode to it. */
  lemma CarriedMessageDecodes(
      c: Codec, f: Fields, m: Message, attempt: int, at: Stamp, topic: string, group: string, consumer: string,
      id: string)
    requires id != "" && m.scheduledAt == 0
    requires ValidStamp(at) && IsInt64(m.maxDeliver) && m.maxDeliver >= 0 && IsInt64(attempt) && attempt > 0
    requires Get(f, FIELD_KEY) == m.key && Get(f, FIELD_TYPE) == m.kind && Get(f, FIELD_DATA) == m.data
    requires Get(f, FIELD_MAX_DELIVER) == Itoa(m.maxDeliver) && Get(f, FIELD_ATTEMPT) == Itoa(attempt)
    requires Get(f, FIELD_PUBLISHED_AT) == Format(at)
    requires IsTrimmed(Get(f, FIELD_HEADERS)) && c.parseHeaders(Get(f, FIELD_HEADERS)) == Some(m.headers)
    ensures Decode(c, topic, group, consumer, Entry(id, f))
        == Ok(Delivery(id, topic, group, consumer, attempt, at, m, f))
  {
    FieldsDecode(c, f, m.maxDeliver, attempt, at, m.headers);
  }

  /** Decoding an encoded message returns it, with MaxDeliver defaulted and the same time and attempt. */
  lemma MessageRoundTrip(
      c: Codec, m: Message, at: Stamp, default: int, attempt: int,
      topic: string, group: string, consumer: string, id: string)
    requires c.Lawful() && Valid(m) && attempt > 0 && IsInt64(attempt) && default >= 0
    requires IsInt64(EffectiveMax(m, default)) && ValidStamp(c.utc(at)) && id != ""
    ensures
      var fields := EncodeFields(c, m, at, default, attempt);
      && fields.Ok?
      && Decode(c, topic, group, consumer, Entry(id, fields.value))
         == Ok(Delivery(id, topic, group, consumer, attempt, c.utc(at),
                        m.(maxDeliver := EffectiveMax(m, default)), fields.value))
  {
    var sent := m.(maxDeliver := EffectiveMax(m, default));
    var f := EncodeFields(c, m, at, default, attempt).value;
    FieldsAreDistinct(m.key, m.kind, m.data, c.headers(m.headers), Format(c.utc(at)), Itoa(sent.maxDeliver),
        Itoa(attempt));
    CarriedMessageDecodes(c, f, sent, attempt, c.utc(at), topic, group, consumer, id);
  }

  /** The envelope ScheduleRetry stores for the next attempt. */
  function EnvelopeOf(topic: string, group: string, d: Delivery, nextAttempt: int): Envelope
    requires ValidStamp(d.publishedAt)
  {
    Envelope(topic, group, d.message.key, d.message.kind, d.message.data, d.message.headers,
             d.message.maxDeliver, nextAttempt, Format(d.publishedAt))
  }

  /** The stream fields the Lua promotion script writes for an envelope. */
  function PromotedFields(c: Codec, e: Envelope): Fields {
    MakeFields(e.key, e.kind, e.data, c.luaHeaders(e.headers), e.publishedAt,
               c.luaNumber(e.maxDeliver), c.luaNumber(e.attempt))
  }

  /**
   A full retry hop, from delivery through envelope and promotion to delivery, changes only id,
   consumer and attempt.
   */
  lemma RetryHop(c: Codec, d: Delivery, nextAttempt: int, consumer: string, id: string)
    requires c.Lawful() && ValidStamp(d.publishedAt) && id != "" && d.message.scheduledAt == 0
    requires 0 <= d.message.maxDeliver <= LUA_EXACT && 0 < nextAttempt <= LUA_EXACT
    ensures
      var stored := c.envelope(EnvelopeOf(d.topic, d.group, d, nextAttempt));
      && c.parseEnvelope(stored).Some?
      && var fields := PromotedFields(c, c.parseEnvelope(stored).value);
         Decode(c, d.topic, d.group, consumer, Entry(id, fields))
         == Ok(d.(id := id, consumer := consumer, attempt := nextAttempt, raw := fields))
  {
    var e := EnvelopeOf(d.topic, d.group, d, nextAttempt);
    assert c.parseEnvelope(c.envelope(e)) == Some(e);
    var f := PromotedFields(c, e);
    FieldsAreDistinct(e.key, e.kind, e.data, c.luaHeaders(e.headers), e.publishedAt, c.luaNumber(e.maxDeliver),
        c.luaNumber(e.attempt));
    CarriedMessageDecodes(c, f, d.message, nextAttempt, d.publishedAt, d.topic, d.group, consumer, id);
  }
}
