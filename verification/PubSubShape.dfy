/**
 How the raw Redis values that pubsub/store.go writes stand for the values of the protocol: field maps
 for stream entries, JSON texts for queued retries.
 */
module PubSubShape {
  import opened Common
  import opened Text
  import opened Decimal
  import opened Timestamp
  import opened Messages
  import opened RetrySet
  import opened PubSubProtocol

  /** What a published value looks like once encoded: a UTC time in years 0 to 9999, a limit Lua can hold. */
  predicate ValueOK(v: Value) {
    && ValidStamp(v.publishedAt) && v.publishedAt.offset == 0
    && v.message.scheduledAt == 0 && 1 <= MaxOf(v) <= LUA_EXACT
  }

  // ----- Stream entries

  /** Everything decodeEntry takes from the fields but the attempt. */
  function Content(cd: Codec, f: Fields): Option<Value> {
    match (DecodeMaxDeliver(f), Parse(TrimSpace(Get(f, FIELD_PUBLISHED_AT))), DecodeHeaders(cd, f))
    case (Some(max), Some(at), Some(headers)) =>
      Some(Value(Message(Get(f, FIELD_KEY), Get(f, FIELD_TYPE), Get(f, FIELD_DATA), headers, max, 0), at))
    case _ => None
  }

  lemma DecodeByContent(cd: Codec, topic: string, group: string, consumer: string, e: Entry)
    requires e.id != ""
    ensures
      Decode(cd, topic, group, consumer, e)
      == match (Content(cd, e.values), DecodeAttempt(e.values))
         case (Some(v), Some(a)) => Ok(Delivery(e.id, topic, group, consumer, a, v.publishedAt, v.message, e.values))
         case _ => Err(ErrInvalidMessage)
  {
  }

  /** The fields carry this value at this attempt. */
  predicate Carries(cd: Codec, f: Fields, v: Value, attempt: int) {
    Content(cd, f) == Some(v) && DecodeAttempt(f) == Some(attempt)
  }

  predicate ShowsEntry(cd: Codec, f: Fields, e: StreamEntry) {
    match e
    case Readable(copy) => ValueOK(copy.v) && Carries(cd, f, copy.v, copy.attempt)
    case Garbage => Content(cd, f).None?
  }

  /** AutoClaim overwrites the attempt field with the delivery count, and only that. */
  function ClaimedFields(f: Fields, n: int): Fields {
    f[FIELD_ATTEMPT := Itoa(n)]
  }

  lemma ClaimKeepsField(f: Fields, n: int, name: string)
    requires |name| != 7 || name[0] == 'h'
    ensures Get(ClaimedFields(f, n), name) == Get(f, name)
  {
    assert |FIELD_ATTEMPT| == 7 && FIELD_ATTEMPT[0] == 'a';
  }

  lemma ClaimedFieldsCarry(cd: Codec, f: Fields, n: int)
    requires 1 <= n <= INT64_MAX
    ensures Content(cd, ClaimedFields(f, n)) == Content(cd, f)
    ensures DecodeAttempt(ClaimedFields(f, n)) == Some(n)
  {
    assert |FIELD_KEY| == 3 && |FIELD_TYPE| == 4 && |FIELD_DATA| == 4 && |FIELD_PUBLISHED_AT| == 12
        && |FIELD_MAX_DELIVER| == 11;
    assert FIELD_HEADERS[0] == 'h';
    ClaimKeepsField(f, n, FIELD_KEY);
    ClaimKeepsField(f, n, FIELD_TYPE);
    ClaimKeepsField(f, n, FIELD_DATA);
    ClaimKeepsField(f, n, FIELD_HEADERS);
    ClaimKeepsField(f, n, FIELD_PUBLISHED_AT);
    ClaimKeepsField(f, n, FIELD_MAX_DELIVER);
    ItoaIsTrimmed(n);
    TrimIsIdentity(Itoa(n));
    AtoiInvertsItoa(n);
  }

  /** Fields with the right texts carry the value, whether Go or Lua wrote them. */
  lemma WrittenFieldsCarry(cd: Codec, f: Fields, v: Value, attempt: int)
    requires ValueOK(v) && 1 <= attempt <= LUA_EXACT
    requires Get(f, FIELD_KEY) == v.message.key && Get(f, FIELD_TYPE) == v.message.kind
        && Get(f, FIELD_DATA) == v.message.data
    requires Get(f, FIELD_MAX_DELIVER) == Itoa(MaxOf(v)) && Get(f, FIELD_ATTEMPT) == Itoa(attempt)
    requires Get(f, FIELD_PUBLISHED_AT) == Format(v.publishedAt)
    requires IsTrimmed(Get(f, FIELD_HEADERS)) && cd.parseHeaders(Get(f, FIELD_HEADERS)) == Some(v.message.headers)
    ensures Carries(cd, f, v, attempt)
  {
    FieldsDecode(cd, f, MaxOf(v), attempt, v.publishedAt, v.message.headers);
  }

  lemma EncodedFieldsCarry(cd: Codec, m: Message, at: Stamp, default: int, attempt: int)
    requires cd.Lawful() && Valid(m) && ValidStamp(cd.utc(at)) && 1 <= attempt <= LUA_EXACT
    requires 1 <= EffectiveMax(m, default) <= LUA_EXACT
    ensures
      var f := EncodeFields(cd, m, at, default, attempt);
      var v := Value(m.(maxDeliver := EffectiveMax(m, default)), cd.utc(at));
      f.Ok? && ValueOK(v) && Carries(cd, f.value, v, attempt)
  {
    var v := Value(m.(maxDeliver := EffectiveMax(m, default)), cd.utc(at));
    var f := EncodeFields(cd, m, at, default, attempt).value;
    FieldsAreDistinct(m.key, m.kind, m.data, cd.headers(m.headers), Format(cd.utc(at)), Itoa(MaxOf(v)), Itoa(attempt));
    WrittenFieldsCarry(cd, f, v, attempt);
  }

  // ----- Queued retries

  function EnvelopeFor(topic: string, group: string, copy: Copy): Envelope {
    var m := copy.v.message;
    Envelope(topic, group, m.key, m.kind, m.data, m.headers, m.maxDeliver, copy.attempt,
             if ValidStamp(copy.v.publishedAt) then Format(copy.v.publishedAt) else "")
  }

  /** The text of the sorted-set member for a copy: equal copies have equal texts. */
  function RawOf(cd: Codec, topic: string, group: string, copy: Copy): string {
    cd.envelope(EnvelopeFor(topic, group, copy))
  }

  /** The copy a member's text stands for. */
  function CopyIn(cd: Codec, raw: string): Option<Copy> {
    match cd.parseEnvelope(raw)
    case Some(e) => (
      match Parse(e.publishedAt)
      case Some(at) => Some(Copy(Value(Message(e.key, e.kind, e.data, e.headers, e.maxDeliver, 0), at), e.attempt))
      case None => None)
    case None => None
  }

  lemma CopyInRaw(cd: Codec, topic: string, group: string, copy: Copy)
    requires cd.Lawful() && ValueOK(copy.v)
    ensures CopyIn(cd, RawOf(cd, topic, group, copy)) == Some(copy)
  {
    var e := EnvelopeFor(topic, group, copy);
    assert cd.parseEnvelope(cd.envelope(e)) == Some(e);
    ParseInvertsFormat(copy.v.publishedAt);
  }

  predicate CopyFits(copy: Copy) {
    ValueOK(copy.v) && 1 <= copy.attempt <= LUA_EXACT
  }

  function TextOf(cd: Codec, topic: string, group: string): Copy -> string {
    (copy: Copy) => RawOf(cd, topic, group, copy)
  }

  /** The sorted set z is the retry map r: one member per copy, with its score. */
  ghost predicate ShowsQueue(cd: Codec, topic: string, group: string, z: seq<Member>, r: map<Copy, int>) {
    Represents(z, r, TextOf(cd, topic, group)) && forall copy :: copy in r ==> CopyFits(copy)
  }

  lemma TextsDiffer(cd: Codec, topic: string, group: string, r: map<Copy, int>, copy: Copy)
    requires cd.Lawful() && CopyFits(copy) && forall other :: other in r ==> CopyFits(other)
    ensures forall other ::
              other in r && TextOf(cd, topic, group)(other) == TextOf(cd, topic, group)(copy) ==> other == copy
  {
    CopyInRaw(cd, topic, group, copy);
    forall other | other in r && RawOf(cd, topic, group, other) == RawOf(cd, topic, group, copy) ensures other == copy {
      CopyInRaw(cd, topic, group, other);
    }
  }

  /** ZADD of a copy's text is the map update. */
  lemma AddShows(cd: Codec, topic: string, group: string, z: seq<Member>, r: map<Copy, int>, copy: Copy, score: int)
    requires cd.Lawful() && ShowsQueue(cd, topic, group, z, r) && CopyFits(copy)
    ensures ShowsQueue(cd, topic, group, Add(z, score, RawOf(cd, topic, group, copy)), r[copy := score])
  {
    TextsDiffer(cd, topic, group, r, copy);
    AddRepresents(z, r, TextOf(cd, topic, group), copy, score);
  }

  /** ZREM of a copy's text is the map removal. */
  lemma RemShows(cd: Codec, topic: string, group: string, z: seq<Member>, r: map<Copy, int>, copy: Copy)
    requires cd.Lawful() && ShowsQueue(cd, topic, group, z, r) && CopyFits(copy)
    ensures ShowsQueue(cd, topic, group, Rem(z, RawOf(cd, topic, group, copy)), r - {copy})
  {
    TextsDiffer(cd, topic, group, r, copy);
    RemRepresents(z, r, TextOf(cd, topic, group), copy);
  }

  /** Every member of the set stands for a queued copy. */
  lemma MemberIsQueued(cd: Codec, topic: string, group: string, z: seq<Member>, r: map<Copy, int>, m: Member)
      returns (copy: Copy)
    requires ShowsQueue(cd, topic, group, z, r) && m in z
    ensures copy in r && CopyFits(copy) && m == Member(r[copy], RawOf(cd, topic, group, copy))
  {
    copy :| copy in r && m == Member(r[copy], TextOf(cd, topic, group)(copy));
  }

  /** What the Lua script makes of a member's text is a stream entry with the copy it stands for. */
  lemma PromotedFieldsCarry(cd: Codec, topic: string, group: string, copy: Copy)
    requires cd.Lawful() && CopyFits(copy)
    ensures
      var e := EnvelopeFor(topic, group, copy);
      && cd.parseEnvelope(RawOf(cd, topic, group, copy)) == Some(e)
      && Carries(cd, PromotedFields(cd, e), copy.v, copy.attempt)
  {
    var e := EnvelopeFor(topic, group, copy);
    assert cd.parseEnvelope(cd.envelope(e)) == Some(e);
    FieldsAreDistinct(e.key, e.kind, e.data, cd.luaHeaders(e.headers), e.publishedAt, cd.luaNumber(e.maxDeliver),
        cd.luaNumber(e.attempt));
    WrittenFieldsCarry(cd, PromotedFields(cd, e), copy.v, copy.attempt);
  }

  // ----- Dead letters

  /** MoveToDLQ's fields: the raw headers as they were delivered, the rest re-encoded, and where it came from. */
  function DeadFields(cd: Codec, d: Delivery, reason: string): Fields
    requires ValidStamp(cd.utc(d.publishedAt))
  {
    MakeFields(d.message.key, d.message.kind, d.message.data, Get(d.raw, FIELD_HEADERS), Format(cd.utc(d.publishedAt)),
               Itoa(d.message.maxDeliver), Itoa(d.attempt))
    ["reason" := reason]["source_id" := d.id]["source_group" := d.group]
  }

  lemma DeadFieldsKeep(cd: Codec, d: Delivery, reason: string, name: string)
    requires ValidStamp(cd.utc(d.publishedAt))
    requires |name| !in {6, 9, 12} || name == FIELD_PUBLISHED_AT
    ensures
      Get(DeadFields(cd, d, reason), name)
      == Get(MakeFields(d.message.key, d.message.kind, d.message.data, Get(d.raw, FIELD_HEADERS),
                        Format(cd.utc(d.publishedAt)), Itoa(d.message.maxDeliver), Itoa(d.attempt)), name)
  {
    assert |"reason"| == 6 && |"source_id"| == 9 && |"source_group"| == 12;
    assert FIELD_PUBLISHED_AT[0] != "source_group"[0];
  }

  predicate Agree(f: Fields, g: Fields) {
    && Get(f, FIELD_KEY) == Get(g, FIELD_KEY) && Get(f, FIELD_TYPE) == Get(g, FIELD_TYPE)
    && Get(f, FIELD_DATA) == Get(g, FIELD_DATA) && Get(f, FIELD_HEADERS) == Get(g, FIELD_HEADERS)
    && Get(f, FIELD_PUBLISHED_AT) == Get(g, FIELD_PUBLISHED_AT)
    && Get(f, FIELD_MAX_DELIVER) == Get(g, FIELD_MAX_DELIVER) && Get(f, FIELD_ATTEMPT) == Get(g, FIELD_ATTEMPT)
  }

  lemma AgreeingFieldsCarry(cd: Codec, f: Fields, g: Fields, v: Value, attempt: int)
    requires Agree(f, g) && Carries(cd, f, v, attempt)
    ensures Carries(cd, g, v, attempt)
  {
  }

  /** Re-encoding a value around a header text that decodes to its headers. */
  lemma ReencodedFieldsCarry(cd: Codec, v: Value, raw: Fields, attempt: int)
    requires ValueOK(v) && Content(cd, raw) == Some(v) && 1 <= attempt <= INT64_MAX
    ensures
      var m := v.message;
      Carries(cd, MakeFields(m.key, m.kind, m.data, Get(raw, FIELD_HEADERS), Format(v.publishedAt), Itoa(MaxOf(v)),
          Itoa(attempt)), v, attempt)
  {
    var m := v.message;
    FieldsAreDistinct(m.key, m.kind, m.data, Get(raw, FIELD_HEADERS), Format(v.publishedAt), Itoa(MaxOf(v)),
        Itoa(attempt));
    NumbersDecode(
      MakeFields(m.key, m.kind, m.data, Get(raw, FIELD_HEADERS), Format(v.publishedAt), Itoa(MaxOf(v)), Itoa(attempt)),
      MaxOf(v), attempt, v.publishedAt);
  }

  /** A dead letter decodes to the message, time and attempt that died. */
  lemma DeadFieldsCarry(cd: Codec, d: Delivery, v: Value, reason: string)
    requires cd.Lawful() && ValueOK(v) && Content(cd, d.raw) == Some(v)
    requires d.message == v.message && d.publishedAt == v.publishedAt && 1 <= d.attempt <= INT64_MAX
    ensures ValidStamp(cd.utc(d.publishedAt)) && Carries(cd, DeadFields(cd, d, reason), v, d.attempt)
    ensures Get(DeadFields(cd, d, reason), "source_group") == d.group
        && Get(DeadFields(cd, d, reason), "source_id") == d.id && Get(DeadFields(cd, d, reason), "reason") == reason
  {
    DeadFieldsName(cd, d, reason);
    hide DeadFields, Carries;
    assert cd.utc(v.publishedAt) == v.publishedAt;
    var f, m := DeadFields(cd, d, reason), v.message;
    var g := MakeFields(m.key, m.kind, m.data, Get(d.raw, FIELD_HEADERS), Format(v.publishedAt), Itoa(MaxOf(v)),
        Itoa(d.attempt));
    ReencodedFieldsCarry(cd, v, d.raw, d.attempt);
    assert Agree(g, f) by {
      DeadFieldsAgree(cd, d, reason);
    }
    AgreeingFieldsCarry(cd, g, f, v, d.attempt);
  }

  lemma DeadFieldsName(cd: Codec, d: Delivery, reason: string)
    requires ValidStamp(cd.utc(d.publishedAt))
    ensures
      var f := DeadFields(cd, d, reason);
      Get(f, "source_group") == d.group && Get(f, "source_id") == d.id && Get(f, "reason") == reason
  {
    assert |"reason"| == 6 && |"source_id"| == 9 && |"source_group"| == 12;
  }

  lemma DeadFieldsAgree(cd: Codec, d: Delivery, reason: string)
    requires ValidStamp(cd.utc(d.publishedAt))
    ensures Agree(MakeFields(d.message.key, d.message.kind, d.message.data, Get(d.raw, FIELD_HEADERS),
                             Format(cd.utc(d.publishedAt)), Itoa(d.message.maxDeliver), Itoa(d.attempt)),
                  DeadFields(cd, d, reason))
  {
    assert |FIELD_KEY| == 3 && |FIELD_TYPE| == 4 && |FIELD_DATA| == 4 && |FIELD_HEADERS| == 7
        && |FIELD_MAX_DELIVER| == 11 && |FIELD_ATTEMPT| == 7;
    DeadFieldsKeep(cd, d, reason, FIELD_KEY);
    DeadFieldsKeep(cd, d, reason, FIELD_TYPE);
    DeadFieldsKeep(cd, d, reason, FIELD_DATA);
    DeadFieldsKeep(cd, d, reason, FIELD_HEADERS);
    DeadFieldsKeep(cd, d, reason, FIELD_PUBLISHED_AT);
    DeadFieldsKeep(cd, d, reason, FIELD_MAX_DELIVER);
    DeadFieldsKeep(cd, d, reason, FIELD_ATTEMPT);
  }
}
