/**
 The Redis store (pubsub/store.go) and the entry handling of the service (pubsub/service.go) as code
 on the raw Redis structures, proved to take exactly the steps of the protocol. A method of Store is
 one command, one script or one loop of commands; Interference stands for everything other consumers,
 groups and publishers may do between two commands.
 */
module PubSubStore {
  import opened Common
  import opened Decimal
  import opened Text
  import opened Timestamp
  import opened Messages
  import opened RetrySet
  import opened PubSubProtocol
  import opened PubSubShape
  import PubSubDelivery

  ghost predicate Follows(c: Config, s: State, t: State) {
    exists steps :: Reaches(c, s, steps, t)
  }

  lemma FollowsSelf(c: Config, s: State)
    ensures Follows(c, s, s)
  {
    assert Reaches(c, s, [], s);
  }

  lemma FollowsTransitively(c: Config, s: State, m: State, t: State)
    requires Follows(c, s, m) && Follows(c, m, t)
    ensures Follows(c, s, t)
  {
    var a :| Reaches(c, s, a, m);
    var b :| Reaches(c, m, b, t);
    ReachesConcat(c, s, a, m, b, t);
  }

  lemma StepFollows(c: Config, s: State, step: Step)
    requires Inv(s) && Enabled(c, s, step)
    ensures Inv(Do(c, s, step)) && Follows(c, s, Do(c, s, step))
  {
    StepKeepsInv(c, s, step);
    assert Reaches(c, Do(c, s, step), [], Do(c, s, step));
    assert [step][1..] == [];
    assert Reaches(c, s, [step], Do(c, s, step));
  }

  /** s is a state of the protocol: some run from the empty topic leads to it. */
  ghost predicate Reachable(c: Config, n: nat, s: State) {
    Follows(c, Init(n), s)
  }

  lemma StaysReachable(c: Config, n: nat, s: State, t: State)
    requires Reachable(c, n, s) && Follows(c, s, t)
    ensures Reachable(c, n, t)
  {
    FollowsTransitively(c, Init(n), s, t);
  }

  /** What the store's configuration fixes: the library codecs, the topic, its groups, the default limit. */
  datatype Topic = Topic(codec: Codec, name: string, groups: seq<string>, defaultMax: int)

  datatype RawGroup = RawGroup(cursor: nat, pending: map<nat, nat>, retry: seq<Member>)

  // ----- Entry ids

  /** The id of the i-th entry of the stream; Redis makes them from a clock, all that matters is that they differ. */
  function EntryId(i: nat): (id: string)
    ensures id != ""
  {
    NatText(i)
  }

  lemma IdNamesPosition(i: nat, j: nat)
    ensures EntryId(i) == EntryId(j) <==> i == j
  {
    NatTextValue(i);
    NatTextValue(j);
  }

  /** XACK of one id: the pending entries, but for the one it names. */
  function XAck(pending: map<nat, nat>, id: string): map<nat, nat> {
    map i | i in pending && EntryId(i) != id :: pending[i]
  }

  lemma XAckRemoves(pending: map<nat, nat>, i: nat)
    ensures XAck(pending, EntryId(i)) == pending - {i}
  {
    forall j ensures EntryId(j) != EntryId(i) <==> j != i {
      IdNamesPosition(i, j);
    }
  }

  // ----- The raw structures stand for the protocol's

  ghost predicate ShowsStream(cd: Codec, raw: seq<Fields>, stream: seq<StreamEntry>) {
    |raw| == |stream| && forall i :: 0 <= i < |raw| ==> ShowsEntry(cd, raw[i], stream[i])
  }

  ghost predicate ShowsGroup(tp: Topic, g: nat, raw: RawGroup, group: Group)
    requires g < |tp.groups|
  {
    && raw.cursor == group.cursor && raw.pending == group.pending
    && ShowsQueue(tp.codec, tp.name, tp.groups[g], raw.retry, group.retry)
  }

  ghost predicate ShowsGroups(tp: Topic, raw: seq<RawGroup>, groups: seq<Group>) {
    |raw| == |groups| == |tp.groups| && forall g :: 0 <= g < |raw| ==> ShowsGroup(tp, g, raw[g], groups[g])
  }

  ghost predicate ShowsDead(tp: Topic, f: Fields, d: Dead) {
    && d.g < |tp.groups| && Get(f, "source_group") == tp.groups[d.g] && Get(f, "source_id") == EntryId(d.i)
    && Get(f, "reason") == "max delivery exceeded"
    && Carries(tp.codec, f, d.copy.v, d.copy.attempt)
  }

  ghost predicate ShowsGraves(tp: Topic, raw: seq<Fields>, dlq: seq<Dead>) {
    |raw| == |dlq| && forall k :: 0 <= k < |raw| ==> ShowsDead(tp, raw[k], dlq[k])
  }

  /** The entry a worker holds is the one its flight is about, by id and content, at the flight's attempt. */
  ghost predicate Delivered(cd: Codec, e: Entry, fl: Flight) {
    && e.id == EntryId(fl.i) && fl.phase.Ready?
    && match fl.entry
       case Readable(copy) => ValueOK(copy.v) && Carries(cd, e.values, copy.v, fl.phase.attempt)
       case Garbage => Content(cd, e.values).None?
  }

  lemma IdsOfDelivered(cd: Codec, entries: seq<Entry>, mine: seq<Flight>)
    requires |entries| == |mine| && forall k :: 0 <= k < |mine| ==> Delivered(cd, entries[k], mine[k])
    ensures forall k :: 0 <= k < |entries| ==> entries[k].id == EntryId(mine[k].i)
  {
    forall k | 0 <= k < |entries| ensures entries[k].id == EntryId(mine[k].i) {
      assert Delivered(cd, entries[k], mine[k]);
    }
  }

  lemma GroupUpdateShows(tp: Topic, raw: seq<RawGroup>, groups: seq<Group>, g: nat, r: RawGroup, group: Group)
    requires ShowsGroups(tp, raw, groups) && g < |raw| && ShowsGroup(tp, g, r, group)
    ensures ShowsGroups(tp, raw[g := r], groups[g := group])
  {
  }

  /** What the Lua script adds to the stream for a member's text. */
  function LuaFields(cd: Codec, raw: string): Fields {
    match cd.parseEnvelope(raw)
    case Some(e) => PromotedFields(cd, e)
    case None => map[]
  }

  function AllLuaFields(cd: Codec, z: seq<Member>): (r: seq<Fields>)
    ensures |r| == |z| && forall i :: 0 <= i < |z| ==> r[i] == LuaFields(cd, z[i].raw)
  {
    seq(|z|, i requires 0 <= i < |z| => LuaFields(cd, z[i].raw))
  }

  /** The value a message becomes when published. */
  function ValueFor(tp: Topic, msg: Message, at: Stamp): Value {
    Value(msg.(maxDeliver := EffectiveMax(msg, tp.defaultMax)), tp.codec.utc(at))
  }

  lemma PublishShows(tp: Topic, c: Config, raw: seq<Fields>, s: State, msg: Message, at: Stamp) returns (t: State)
    requires tp.codec.Lawful() && 1 <= tp.defaultMax && Messages.Valid(msg) && Inv(s)
    requires ValidStamp(tp.codec.utc(at)) && EffectiveMax(msg, tp.defaultMax) <= LUA_EXACT
    requires ShowsStream(tp.codec, raw, s.stream)
    ensures Enabled(c, s, Step.Publish(ValueFor(tp, msg, at))) && t == Do(c, s, Step.Publish(ValueFor(tp, msg, at)))
    ensures Inv(t) && Follows(c, s, t) && t.groups == s.groups && t.dlq == s.dlq
    ensures EncodeFields(tp.codec, msg, at, tp.defaultMax, 1).Ok?
    ensures ShowsStream(tp.codec, raw + [EncodeFields(tp.codec, msg, at, tp.defaultMax, 1).value], t.stream)
  {
    hide EncodeFields, Carries, Codec.Lawful, EntryOK, GroupOK, FlightOK;
    EncodedFieldsCarry(tp.codec, msg, at, tp.defaultMax, 1);
    var step := Step.Publish(ValueFor(tp, msg, at));
    StepFollows(c, s, step);
    t := Do(c, s, step);
  }

  /** What Publish writes, by the names on the wire. */
  ghost predicate IsWire(cd: Codec, f: Fields, msg: Message, at: Stamp, maxDeliver: int)
    requires ValidStamp(cd.utc(at))
  {
    && Get(f, "key") == msg.key && Get(f, "type") == msg.kind && Get(f, "data") == msg.data
    && cd.parseHeaders(Get(f, "headers")) == Some(msg.headers)
    && Parse(Get(f, "published_at")) == Some(cd.utc(at))
    && Atoi(Get(f, "max_deliver")) == Some(maxDeliver) && Get(f, "attempt") == "1"
    && f.Keys == {"key", "type", "data", "headers", "published_at", "max_deliver", "attempt"}
  }

  lemma IsWireOf(cd: Codec, msg: Message, at: Stamp, maxDeliver: int, headers: string, stamp: string)
    requires ValidStamp(cd.utc(at)) && cd.parseHeaders(headers) == Some(msg.headers) && stamp == Format(cd.utc(at))
    requires Parse(stamp) == Some(cd.utc(at)) && Atoi(Itoa(maxDeliver)) == Some(maxDeliver)
    ensures IsWire(cd, MakeFields(msg.key, msg.kind, msg.data, headers, stamp, Itoa(maxDeliver), Itoa(1)), msg, at,
                   maxDeliver)
  {
    hide Atoi, Parse, Format;
    FieldsAreDistinct(msg.key, msg.kind, msg.data, headers, stamp, Itoa(maxDeliver), Itoa(1));
    assert Itoa(1) == "1";
  }

  lemma WireOf(cd: Codec, msg: Message, at: Stamp, default: int)
    requires cd.Lawful() && ValidStamp(cd.utc(at)) && Messages.Valid(msg) && IsInt64(EffectiveMax(msg, default))
    ensures EncodeFields(cd, msg, at, default, 1).Ok?
    ensures IsWire(cd, EncodeFields(cd, msg, at, default, 1).value, msg, at, EffectiveMax(msg, default))
  {
    hide Atoi, Parse, Format, IsWire, MakeFields;
    ParseInvertsFormat(cd.utc(at));
    AtoiInvertsItoa(EffectiveMax(msg, default));
    assert cd.parseHeaders(cd.headers(msg.headers)) == Some(msg.headers);
    IsWireOf(cd, msg, at, EffectiveMax(msg, default), cd.headers(msg.headers), Format(cd.utc(at)));
  }

  /** The delivery is what handleEntry decoded for this flight. */
  ghost predicate Handed(tp: Topic, d: Delivery, fl: Flight) {
    && fl.entry.Readable? && ValueOK(fl.entry.copy.v) && (fl.phase.Ready? || fl.phase.Failed?)
    && fl.g < |tp.groups| && d.topic == tp.name && d.group == tp.groups[fl.g] && d.id == EntryId(fl.i)
    && d.message == fl.entry.copy.v.message && d.publishedAt == fl.entry.copy.v.publishedAt
    && Content(tp.codec, d.raw) == Some(fl.entry.copy.v)
    && 1 <= d.attempt == fl.phase.attempt <= INT64_MAX
  }

  lemma AckShows(tp: Topic, c: Config, raw: seq<RawGroup>, s: State, step: Step, f: nat) returns (t: State)
    requires Inv(s) && ShowsGroups(tp, raw, s.groups) && f < |s.flights|
    requires step in {AckGarbage(f), Drop(f), AckDone(f)} && Enabled(c, s, step)
    ensures t == Do(c, s, step) && t.stream == s.stream && t.dlq == s.dlq && s.flights[f].g < |raw|
    ensures Inv(t) && Follows(c, s, t)
    ensures
      var fl := s.flights[f];
      ShowsGroups(tp, raw[fl.g := raw[fl.g].(pending := raw[fl.g].pending - {fl.i})], t.groups)
  {
    StepFollows(c, s, step);
    t := Do(c, s, step);
    PendingUpdateShows(tp, raw, s.groups, s.flights[f].g, s.flights[f].i);
  }

  const SPENT := "max delivery exceeded"

  lemma BuryShows(tp: Topic, c: Config, raw: seq<RawGroup>, graves: seq<Fields>, s: State, grave: Fields, f: nat)
      returns (t: State)
    requires Inv(s) && ShowsGroups(tp, raw, s.groups) && ShowsGraves(tp, graves, s.dlq) && f < |s.flights|
    requires Enabled(c, s, Bury(f)) && IsGraveOf(tp, grave, s.flights[f])
    ensures t == Do(c, s, Bury(f)) && t.stream == s.stream && s.flights[f].g < |raw|
    ensures Inv(t) && Follows(c, s, t)
    ensures
      var fl := s.flights[f];
      ShowsGroups(tp, raw[fl.g := raw[fl.g].(pending := raw[fl.g].pending - {fl.i})], t.groups)
    ensures ShowsGraves(tp, graves + [grave], t.dlq)
  {
    hide ShowsDead, ShowsGroup;
    var fl := s.flights[f];
    StepFollows(c, s, Bury(f));
    t := Do(c, s, Bury(f));
    PendingUpdateShows(tp, raw, s.groups, fl.g, fl.i);
  }

  function GraveOf(fl: Flight): Dead
    requires fl.entry.Readable? && (fl.phase.Ready? || fl.phase.Failed?)
  {
    Dead(fl.g, fl.i, Copy(fl.entry.copy.v, fl.phase.attempt))
  }

  /** The fields are a dead letter for this flight. */
  ghost predicate IsGraveOf(tp: Topic, grave: Fields, fl: Flight) {
    fl.entry.Readable? && (fl.phase.Ready? || fl.phase.Failed?) && ShowsDead(tp, grave, GraveOf(fl))
  }

  lemma PendingUpdateShows(tp: Topic, raw: seq<RawGroup>, groups: seq<Group>, g: nat, i: nat)
    requires ShowsGroups(tp, raw, groups) && g < |raw|
    ensures ShowsGroups(tp, raw[g := raw[g].(pending := raw[g].pending - {i})],
                        groups[g := groups[g].(pending := groups[g].pending - {i})])
  {
    assert ShowsGroup(tp, g, raw[g], groups[g]);
    GroupUpdateShows(tp, raw, groups, g, raw[g].(pending := raw[g].pending - {i}),
        groups[g].(pending := groups[g].pending - {i}));
  }

  lemma GraveShows(tp: Topic, d: Delivery, fl: Flight)
    requires tp.codec.Lawful() && Handed(tp, d, fl)
    ensures ValidStamp(tp.codec.utc(d.publishedAt))
    ensures IsGraveOf(tp, DeadFields(tp.codec, d, SPENT), fl)
  {
    hide DeadFields, Carries, Content, EntryId, Format, Codec.Lawful;
    DeadFieldsCarry(tp.codec, d, fl.entry.copy.v, SPENT);
  }

  /** What the protocol's retry step does to the state, spelled out. */
  lemma RetryState(c: Config, s: State, f: nat, now: int)
    requires Inv(s) && Enabled(c, s, Retry(f, now)) && MaxOf(s.flights[f].entry.copy.v) >= 1
    ensures
      var fl, t := s.flights[f], Do(c, s, Retry(f, now));
      var copy := Copy(fl.entry.copy.v, fl.phase.attempt + 1);
      && t.stream == s.stream && t.dlq == s.dlq && t.flights == RemoveAt(s.flights, f)
      && t.groups == s.groups[fl.g := s.groups[fl.g].(
           retry := s.groups[fl.g].retry[copy := UnixMilli(DueAt(c, fl.g, copy.attempt, now))],
           pending := s.groups[fl.g].pending - {fl.i})]
      && copy.attempt <= MaxOf(copy.v)
  {
    LimitIsStored(c, s.flights[f].g, s.flights[f].entry.copy.v);
  }

  /** The copy that a failed flight's retry queues. */
  function RetryCopy(fl: Flight): Copy
    requires fl.entry.Readable? && fl.phase.Failed?
  {
    Copy(fl.entry.copy.v, fl.phase.attempt + 1)
  }

  /** The envelope of the next attempt is the text of the copy that the protocol queues. */
  lemma PayloadIsText(tp: Topic, d: Delivery, fl: Flight)
    requires Handed(tp, d, fl) && fl.phase.Failed?
    ensures ValidStamp(d.publishedAt)
    ensures tp.codec.envelope(EnvelopeOf(tp.name, d.group, d, d.attempt + 1))
            == RawOf(tp.codec, tp.name, tp.groups[fl.g], RetryCopy(fl))
  {
    hide Carries, DecodeAttempt, Content;
  }

  lemma QueueUpdateShows(
      tp: Topic, raw: seq<RawGroup>, groups: seq<Group>, g: nat, i: nat, copy: Copy, score: int, text: string)
    requires tp.codec.Lawful() && ShowsGroups(tp, raw, groups) && g < |raw| && CopyFits(copy)
    requires text == RawOf(tp.codec, tp.name, tp.groups[g], copy)
    ensures
      ShowsGroups(tp,
                  raw[g := raw[g].(retry := Add(raw[g].retry, score, text), pending := raw[g].pending - {i})],
                  groups[g := groups[g].(retry := groups[g].retry[copy := score], pending := groups[g].pending - {i})])
  {
    assert ShowsGroup(tp, g, raw[g], groups[g]);
    AddShows(tp.codec, tp.name, tp.groups[g], raw[g].retry, groups[g].retry, copy, score);
    GroupUpdateShows(tp, raw, groups, g,
                     raw[g].(retry := Add(raw[g].retry, score, text), pending := raw[g].pending - {i}),
                     groups[g].(retry := groups[g].retry[copy := score], pending := groups[g].pending - {i}));
  }

  lemma RetryShows(
      tp: Topic, c: Config, raw: seq<RawGroup>, s: State, score: int, text: string, f: nat, now: int) returns (t: State)
    requires tp.codec.Lawful() && Inv(s) && ShowsGroups(tp, raw, s.groups) && f < |s.flights|
    requires Enabled(c, s, Retry(f, now)) && ValueOK(s.flights[f].entry.copy.v) && s.flights[f].g < |tp.groups|
    requires text == RawOf(tp.codec, tp.name, tp.groups[s.flights[f].g], RetryCopy(s.flights[f]))
    requires score == UnixMilli(DueAt(c, s.flights[f].g, s.flights[f].phase.attempt + 1, now))
    ensures t == Do(c, s, Retry(f, now)) && t.stream == s.stream && t.dlq == s.dlq && s.flights[f].g < |raw|
    ensures Inv(t) && Follows(c, s, t)
    ensures
      var fl := s.flights[f];
      ShowsGroups(tp, raw[fl.g := raw[fl.g].(
        retry := Add(raw[fl.g].retry, score, text), pending := raw[fl.g].pending - {fl.i})], t.groups)
  {
    hide Carries, ShowsEntry, ShowsQueue, RawOf;
    var fl := s.flights[f];
    StepFollows(c, s, Retry(f, now));
    t := Do(c, s, Retry(f, now));
    RetryState(c, s, f, now);
    assert fl.phase.attempt >= 1 by {
      assert FlightOK(s, fl);
    }
    QueueUpdateShows(tp, raw, s.groups, fl.g, fl.i, RetryCopy(fl), score, text);
  }

  /** Promoting the copy a text stands for is the script's XADD and ZREM of that text. */
  lemma PromoteShows(
      tp: Topic, c: Config, stream: seq<Fields>, raw: seq<RawGroup>, s: State, g: nat, m: Member, now: int)
    returns (t: State, copy: Copy)
    requires tp.codec.Lawful() && Inv(s) && ShowsStream(tp.codec, stream, s.stream) && ShowsGroups(tp, raw, s.groups)
    requires g < |raw| && m in raw[g].retry && m.score <= UnixMilli(now)
    ensures Enabled(c, s, Promote(g, copy, now)) && t == Do(c, s, Promote(g, copy, now)) && t.dlq == s.dlq
    ensures Inv(t) && Follows(c, s, t)
    ensures ShowsStream(tp.codec, stream + [LuaFields(tp.codec, m.raw)], t.stream)
    ensures ShowsGroups(tp, raw[g := raw[g].(retry := Rem(raw[g].retry, m.raw))], t.groups)
  {
    hide Carries, RawOf, LuaFields, Represents;
    var group := s.groups[g];
    assert ShowsGroup(tp, g, raw[g], group);
    copy := MemberIsQueued(tp.codec, tp.name, tp.groups[g], raw[g].retry, group.retry, m);
    StepFollows(c, s, Promote(g, copy, now));
    t := Do(c, s, Promote(g, copy, now));
    TextBecomesEntry(tp.codec, tp.name, tp.groups[g], copy);
    RemShows(tp.codec, tp.name, tp.groups[g], raw[g].retry, group.retry, copy);
    GroupUpdateShows(tp, raw, s.groups, g, raw[g].(retry := Rem(raw[g].retry, m.raw)),
        group.(retry := group.retry - {copy}));
  }

  lemma TextBecomesEntry(cd: Codec, topic: string, group: string, copy: Copy)
    requires cd.Lawful() && CopyFits(copy)
    ensures ShowsEntry(cd, LuaFields(cd, RawOf(cd, topic, group, copy)), Readable(copy))
  {
    PromotedFieldsCarry(cd, topic, group, copy);
  }

  lemma AllLuaFieldsAppend(cd: Codec, z: seq<Member>, n: nat)
    requires n < |z|
    ensures AllLuaFields(cd, z[..n + 1]) == AllLuaFields(cd, z[..n]) + [LuaFields(cd, z[n].raw)]
  {
  }

  lemma SetOfQueue(tp: Topic, g: nat, raw: RawGroup, group: Group)
    requires g < |tp.groups| && ShowsGroup(tp, g, raw, group)
    ensures IsSet(raw.retry)
  {
  }

  lemma StreamsAgree(cd: Codec, raw: seq<Fields>, stream: seq<StreamEntry>)
    requires ShowsStream(cd, raw, stream)
    ensures |raw| == |stream|
  {
  }

  class Store {
    const topic: Topic
    const config: Config
    var stream: seq<Fields>      // entry ids are stream positions
    var groups: seq<RawGroup>
    var dlq: seq<Fields>
    ghost var st: State

    ghost predicate Valid()
      reads this
    {
      && topic.codec.Lawful() && 1 <= topic.defaultMax <= LUA_EXACT && |config.policies| == |topic.groups|
      && ShowsStream(topic.codec, stream, st.stream)
      && ShowsGroups(topic, groups, st.groups)
      && ShowsGraves(topic, dlq, st.dlq)
      && Inv(st) && Reachable(config, |topic.groups|, st)
    }

    constructor (topic: Topic, config: Config)
      requires topic.codec.Lawful() && 1 <= topic.defaultMax <= LUA_EXACT && |config.policies| == |topic.groups|
      ensures Valid() && this.topic == topic && this.config == config && st == Init(|topic.groups|)
    {
      this.topic := topic;
      this.config := config;
      stream, dlq := [], [];
      groups := seq(|topic.groups|, i => RawGroup(0, map[], []));
      st := Init(|topic.groups|);
      InitOK(|topic.groups|);
      FollowsSelf(config, Init(|topic.groups|));
    }

    /** Whatever stores and services have done, in whatever order: no message published to this topic is lost. */
    lemma LosesNothing(g: nat, v: Value)
      requires Valid() && g < |topic.groups| && Published(v) in st.log
      ensures PubSubDelivery.Held(st, g, v) || PubSubDelivery.Settled(config, st, g, v)
    {
      var steps :| Reaches(config, Init(|topic.groups|), steps, st);
      PubSubDelivery.NothingIsLost(config, |topic.groups|, steps, st, g, v);
    }

    /** Anything others may do meanwhile; the flights in `mine` are this worker's own. */
    method Interference(ghost mine: multiset<Flight>)
      requires Valid() && mine <= multiset(st.flights)
      modifies this
      ensures Valid() && Follows(config, old(st), st) && mine <= multiset(st.flights) && |groups| == |old(groups)|
    {
      FollowsSelf(config, st);
    }

    // ----- Publishing and reading

    method Publish(msg: Message, at: Stamp) returns (r: Result<string, MessageError>)
      requires Valid() && ValidStamp(topic.codec.utc(at)) && EffectiveMax(msg, topic.defaultMax) <= LUA_EXACT
      modifies this`stream, this`st
      ensures Valid()
      ensures r.Err? <==> (TrimSpace(msg.kind) == "" && msg.data == "") || msg.maxDeliver < 0 || msg.scheduledAt != 0
      ensures r.Err? ==> st == old(st) && stream == old(stream)
      ensures
        r.Ok? ==>
          var maxDeliver := if msg.maxDeliver > 0 then msg.maxDeliver else topic.defaultMax;
          var step := Step.Publish(Value(msg.(maxDeliver := maxDeliver), topic.codec.utc(at)));
          && r.value == EntryId(|old(stream)|) && Enabled(config, old(st), step) && st == Do(config, old(st), step)
          && |stream| == |old(stream)| + 1 && stream[..|old(stream)|] == old(stream)
          && IsWire(topic.codec, stream[|old(stream)|], msg, at, maxDeliver)
    {
      hide IsWire, Codec.Lawful, Carries, ShowsEntry, ShowsGroup, ShowsDead, Inv, Do, Follows, Reachable, Format;
      var fields := EncodeFields(topic.codec, msg, at, topic.defaultMax, 1);
      if fields.Err? {
        return Err(fields.error);
      }
      ghost var t := PublishShows(topic, config, stream, st, msg, at);
      WireOf(topic.codec, msg, at, topic.defaultMax);
      r := Ok(EntryId(|stream|));
      stream := stream + [fields.value];
      StaysReachable(config, |topic.groups|, st, t);
      st := t;
    }

    /** One entry of an XREADGROUP reply. */
    method ReadNext(g: nat) returns (e: Entry)
      requires Valid() && g < |groups| && groups[g].cursor < |stream|
      modifies this`groups, this`st
      ensures Valid() && Enabled(config, old(st), Read(g)) && st == Do(config, old(st), Read(g))
      ensures groups[g].cursor == old(groups[g].cursor) + 1 && |groups| == |old(groups)|
      ensures e.values == stream[old(groups[g].cursor)] && Delivered(topic.codec, e, st.flights[|st.flights| - 1])
    {
      hide ShowsQueue, ShowsDead, Codec.Lawful, Follows, Reachable, Content, DecodeAttempt;
      var i := groups[g].cursor;
      assert ShowsGroup(topic, g, groups[g], st.groups[g]) && ShowsEntry(topic.codec, stream[i], st.stream[i]);
      StepFollows(config, st, Read(g));
      GroupUpdateShows(topic, groups, st.groups, g,
                       groups[g].(cursor := i + 1, pending := groups[g].pending[i := 1]),
                       st.groups[g].(cursor := i + 1, pending := st.groups[g].pending[i := 1]));
      groups := groups[g := groups[g].(cursor := i + 1, pending := groups[g].pending[i := 1])];
      StaysReachable(config, |topic.groups|, st, Do(config, st, Read(g)));
      st := Do(config, st, Read(g));
      e := Entry(EntryId(i), stream[i]);
    }

    /** The same, as the reply's reader sees it. */
    method ReadEntry(g: nat) returns (e: Entry, ghost fl: Flight)
      requires Valid() && g < |groups| && groups[g].cursor < |stream|
      modifies this`groups, this`st
      ensures Valid() && Follows(config, old(st), st) && |groups| == |old(groups)|
      ensures groups[g].cursor == old(groups[g].cursor) + 1
      ensures st.flights == old(st).flights + [fl] && fl.g == g && fl.i == old(groups[g].cursor)
      ensures Delivered(topic.codec, e, fl) && e.values == stream[old(groups[g].cursor)]
    {
      ghost var s := st;
      assert ShowsGroup(topic, g, groups[g], st.groups[g]);
      e := ReadNext(g);
      StepFollows(config, s, Read(g));
      fl := st.flights[|st.flights| - 1];
    }

    /** XREADGROUP with COUNT: the next entries in stream order, each a new flight. */
    method ReadGroup(g: nat, count: int) returns (entries: seq<Entry>, ghost mine: seq<Flight>)
      requires Valid() && g < |groups| && count > 0
      modifies this`groups, this`st
      ensures Valid() && Follows(config, old(st), st) && |groups| == |old(groups)|
      ensures |entries| == |mine| == Min(count, |stream| - old(groups[g].cursor))
      ensures groups[g].cursor == old(groups[g].cursor) + |entries| && st.flights == old(st).flights + mine
      ensures forall k :: 0 <= k < |entries| ==> entries[k].id == EntryId(old(groups[g].cursor) + k)
      ensures forall k :: 0 <= k < |entries| ==> entries[k].values == stream[old(groups[g].cursor) + k]
      ensures forall k :: 0 <= k < |mine| ==>
        mine[k].g == g && mine[k].i == old(groups[g].cursor) + k && Delivered(topic.codec, entries[k], mine[k])
    {
      hide Follows, ShowsEntry, ShowsDead, Delivered, Codec.Lawful;
      entries, mine := [], [];
      ghost var s0 := st;
      FollowsSelf(config, s0);
      assert ShowsGroup(topic, g, groups[g], st.groups[g]) && GroupOK(st, g);
      while |entries| < count && groups[g].cursor < |stream|
        invariant Valid() && Follows(config, s0, st) && |groups| == |old(groups)|
        invariant |entries| == |mine| <= count && groups[g].cursor == old(groups[g].cursor) + |entries| <= |stream|
        invariant st.flights == s0.flights + mine
        invariant forall k :: 0 <= k < |mine| ==>
          mine[k].g == g && mine[k].i == old(groups[g].cursor) + k && Delivered(topic.codec, entries[k], mine[k])
        invariant forall k :: 0 <= k < |entries| ==> entries[k].values == stream[old(groups[g].cursor) + k]
      {
        ghost var s := st;
        var e, fl := ReadEntry(g);
        FollowsTransitively(config, s0, s, st);
        entries, mine := entries + [e], mine + [fl];
      }
      IdsOfDelivered(topic.codec, entries, mine);
    }

    // ----- Closing a flight: each is one command or one script

    /** XACK of an entry: what handleEntry does with garbage, handled entries, and drops. */
    method Ack(g: nat, id: string, ghost step: Step, ghost f: nat)
      requires Valid() && f < |st.flights| && st.flights[f].g == g && EntryId(st.flights[f].i) == id
      requires step in {AckGarbage(f), Drop(f), AckDone(f)} && Enabled(config, st, step)
      modifies this`groups, this`st
      ensures Valid() && st == Do(config, old(st), step) && Follows(config, old(st), st)
      ensures |groups| == |old(groups)|
    {
      ghost var t := AckShows(topic, config, groups, st, step, f);
      XAckRemoves(groups[g].pending, st.flights[f].i);
      groups := groups[g := groups[g].(pending := XAck(groups[g].pending, id))];
      StaysReachable(config, |topic.groups|, st, t);
      st := t;
    }

    /** The script that adds to the dead-letter stream and acknowledges. */
    method DLQAndAck(g: nat, id: string, grave: Fields, ghost f: nat)
      requires Valid() && f < |st.flights| && st.flights[f].g == g && EntryId(st.flights[f].i) == id
      requires Enabled(config, st, Bury(f)) && IsGraveOf(topic, grave, st.flights[f])
      modifies this`groups, this`dlq, this`st
      ensures Valid() && st == Do(config, old(st), Bury(f)) && Follows(config, old(st), st)
      ensures dlq == old(dlq) + [grave] && |groups| == |old(groups)|
    {
      hide ShowsDead, ShowsEntry;
      ghost var t := BuryShows(topic, config, groups, dlq, st, grave, f);
      XAckRemoves(groups[g].pending, st.flights[f].i);
      dlq := dlq + [grave];
      groups := groups[g := groups[g].(pending := XAck(groups[g].pending, id))];
      StaysReachable(config, |topic.groups|, st, t);
      st := t;
    }

    method MoveToDLQ(g: nat, d: Delivery, ghost f: nat)
      requires Valid() && f < |st.flights| && st.flights[f].g == g
      requires Enabled(config, st, Bury(f)) && Handed(topic, d, st.flights[f])
      modifies this`groups, this`dlq, this`st
      ensures Valid() && st == Do(config, old(st), Bury(f)) && Follows(config, old(st), st)
      ensures |groups| == |old(groups)|
    {
      hide Carries, ShowsEntry, ShowsQueue;
      GraveShows(topic, d, st.flights[f]);
      var grave := DeadFields(topic.codec, d, SPENT);
      DLQAndAck(g, d.id, grave, f);
    }

    /** The script that queues a retry and acknowledges. */
    method RetryAndAck(g: nat, id: string, score: int, text: string, ghost f: nat, ghost failedAt: int)
      requires Valid() && f < |st.flights| && st.flights[f].g == g < |topic.groups| && EntryId(st.flights[f].i) == id
      requires Enabled(config, st, Retry(f, failedAt)) && ValueOK(st.flights[f].entry.copy.v)
      requires text == RawOf(topic.codec, topic.name, topic.groups[g], RetryCopy(st.flights[f]))
      requires score == UnixMilli(DueAt(config, g, st.flights[f].phase.attempt + 1, failedAt))
      modifies this`groups, this`st
      ensures Valid() && st == Do(config, old(st), Retry(f, failedAt)) && Follows(config, old(st), st)
      ensures |groups| == |old(groups)|
    {
      hide ShowsStream, ShowsGroup, ShowsGraves, RawOf, Do, Enabled, Inv, Follows, Reachable, Codec.Lawful;
      hide EntryId, XAck;
      ghost var t := RetryShows(topic, config, groups, st, score, text, f, failedAt);
      XAckRemoves(groups[g].pending, st.flights[f].i);
      groups := groups[g :=
        groups[g].(retry := Add(groups[g].retry, score, text), pending := XAck(groups[g].pending, id))];
      StaysReachable(config, |topic.groups|, st, t);
      st := t;
    }

    method ScheduleRetry(g: nat, d: Delivery, dueAt: int, nextAttempt: int, ghost f: nat, ghost failedAt: int)
      requires Valid() && f < |st.flights| && st.flights[f].g == g
      requires Enabled(config, st, Retry(f, failedAt)) && Handed(topic, d, st.flights[f])
      requires nextAttempt == d.attempt + 1 && dueAt == DueAt(config, g, nextAttempt, failedAt)
      modifies this`groups, this`st
      ensures Valid() && st == Do(config, old(st), Retry(f, failedAt)) && Follows(config, old(st), st)
      ensures |groups| == |old(groups)|
    {
      hide Content, ShowsStream, ShowsGroup, ShowsGraves, RawOf, EnvelopeOf, Do, Codec.Lawful, Reachable, Inv, EntryId;
      PayloadIsText(topic, d, st.flights[f]);
      var payload := topic.codec.envelope(EnvelopeOf(topic.name, d.group, d, nextAttempt));
      RetryAndAck(g, d.id, UnixMilli(dueAt), payload, f, failedAt);
    }

    // ----- Claiming

    /** XAUTOCLAIM of one pending entry: its idle time is up, and its delivery count goes up. */
    method Claim(g: nat, i: nat) returns (ghost fl: Flight)
      requires Valid() && g < |groups| && i in groups[g].pending
      modifies this`groups, this`st
      ensures Valid() && Enabled(config, old(st), Step.Claim(g, i)) && st == Do(config, old(st), Step.Claim(g, i))
      ensures Follows(config, old(st), st) && |groups| == |old(groups)|
      ensures groups[g].pending == old(groups[g].pending)[i := old(groups[g].pending[i]) + 1]
      ensures st.flights == old(st).flights + [fl] && fl.g == g && fl.i == i && fl.phase.Unread?
    {
      hide ShowsEntry, ShowsQueue, ShowsDead, Codec.Lawful, Follows, Reachable;
      var n := groups[g].pending[i] + 1;
      assert ShowsGroup(topic, g, groups[g], st.groups[g]) && GroupOK(st, g);
      StepFollows(config, st, Step.Claim(g, i));
      GroupUpdateShows(topic, groups, st.groups, g,
                       groups[g].(pending := groups[g].pending[i := n]),
                       st.groups[g].(pending := st.groups[g].pending[i := n]));
      groups := groups[g := groups[g].(pending := groups[g].pending[i := n])];
      StaysReachable(config, |topic.groups|, st, Do(config, st, Step.Claim(g, i)));
      st := Do(config, st, Step.Claim(g, i));
      fl := st.flights[|st.flights| - 1];
    }

    /** XPENDING for one id; a count that does not fit a 64-bit integer reads as an error. */
    method PendingRetryCount(g: nat, id: string, answered: bool) returns (count: Option<int>)
      requires g < |groups|
      ensures !answered ==> count == None
      ensures answered ==>
                forall i: nat :: EntryId(i) == id ==>
                  count == if i !in groups[g].pending then Some(0)
                           else if groups[g].pending[i] <= INT64_MAX then Some(groups[g].pending[i]) else None
    {
      if !answered {
        return None;
      }
      forall i: nat, j: nat ensures EntryId(i) == EntryId(j) ==> i == j {
        IdNamesPosition(i, j);
      }
      if i :| i in groups[g].pending && EntryId(i) == id {
        count := if groups[g].pending[i] <= INT64_MAX then Some(groups[g].pending[i]) else None;
      } else {
        count := Some(0);
      }
    }

    /** The body of AutoClaim's loop: the delivery count, if it can be read, replaces the stored attempt. */
    method ReadCount(g: nat, i: nat, answered: bool, ghost f: nat) returns (e: Entry, ghost ok: bool)
      requires Valid() && f < |st.flights| && st.flights[f].g == g < |groups| && st.flights[f].i == i < |stream|
      requires st.flights[f].phase.Unread?
      modifies this`st
      ensures Valid() && Enabled(config, old(st), CountRead(f, ok)) && st == Do(config, old(st), CountRead(f, ok))
      ensures ok <==> answered && (i in groups[g].pending ==> groups[g].pending[i] <= INT64_MAX)
      ensures Follows(config, old(st), st)
      ensures |st.flights| == |old(st).flights| && Delivered(topic.codec, e, st.flights[f])
    {
      hide ShowsQueue, ShowsDead, Decode, Content, DecodeAttempt;
      assert ShowsGroup(topic, g, groups[g], st.groups[g]) && FlightOK(st, st.flights[f]);
      assert ShowsEntry(topic.codec, stream[i], st.stream[i]) && EntryOK(st.stream[i]);
      ok := answered && (i in groups[g].pending ==> groups[g].pending[i] <= INT64_MAX);
      StepFollows(config, st, CountRead(f, ok));
      var values := stream[i];
      var count := PendingRetryCount(g, EntryId(i), answered);
      if count.Some? && count.value > 0 {
        ClaimedFieldsCarry(topic.codec, values, count.value);
        values := ClaimedFields(values, count.value);
      }
      StaysReachable(config, |topic.groups|, st, Do(config, st, CountRead(f, ok)));
      st := Do(config, st, CountRead(f, ok));
      e := Entry(EntryId(i), values);
    }

    /** The XAUTOCLAIM command: one more delivery of every chosen entry. */
    method ClaimAll(g: nat, chosen: seq<nat>) returns (ghost mine: seq<Flight>)
      requires Valid() && g < |groups| && forall k :: 0 <= k < |chosen| ==> chosen[k] in groups[g].pending
      modifies this`groups, this`st
      ensures Valid() && Follows(config, old(st), st)
      ensures |mine| == |chosen| && st.flights == old(st).flights + mine && |groups| == |old(groups)|
      ensures forall k :: 0 <= k < |mine| ==> mine[k].g == g && mine[k].i == chosen[k] && mine[k].phase.Unread?
    {
      hide ShowsStream, ShowsGroups, ShowsGraves, Inv, Do, Enabled, Follows;
      ghost var s0 := st;
      FollowsSelf(config, s0);
      mine := [];
      var k := 0;
      while k < |chosen|
        invariant 0 <= k == |mine| <= |chosen| && g < |groups| == |old(groups)|
        invariant Valid() && Follows(config, s0, st) && st.flights == s0.flights + mine
        invariant forall j :: 0 <= j < |chosen| ==> chosen[j] in groups[g].pending
        invariant forall j :: 0 <= j < |mine| ==> mine[j].g == g && mine[j].i == chosen[j] && mine[j].phase.Unread?
      {
        ghost var s := st;
        ghost var fl := Claim(g, chosen[k]);
        FollowsTransitively(config, s0, s, st);
        mine := mine + [fl];
        k := k + 1;
      }
    }

    /** The same as ReadCount, among a worker's other flights. */
    method ReadCountOf(g: nat, i: nat, answered: bool, ghost mine: seq<Flight>, ghost k: nat)
      returns (e: Entry, ghost fl: Flight)
      requires Valid() && g < |groups| && k < |mine| && multiset(mine) <= multiset(st.flights)
      requires mine[k].g == g && mine[k].i == i && mine[k].phase.Unread?
      modifies this`st
      ensures Valid() && Follows(config, old(st), st) && multiset(mine[k := fl]) <= multiset(st.flights)
      ensures fl.g == g && fl.i == i && Delivered(topic.codec, e, fl)
    {
      hide ShowsStream, ShowsGroups, ShowsGraves, Delivered, Follows, Codec.Lawful;
      ghost var before := st.flights;
      ghost var f := BagIndex(before, mine[k]);
      assert i < |stream| by {
        assert FlightOK(st, st.flights[f]);
        StreamsAgree(topic.codec, stream, st.stream);
      }
      ghost var ok;
      e, ok := ReadCount(g, i, answered, f);
      fl := st.flights[f];
      BagUpdate(mine, k, fl);
      BagUpdate(before, f, fl);
    }

    /** One round of AutoClaim's loop, after whatever others did since the last. */
    method NextClaimed(g: nat, i: nat, answered: bool, ghost mine: seq<Flight>, ghost k: nat)
      returns (e: Entry, ghost fl: Flight)
      requires Valid() && g < |groups| && k < |mine| && multiset(mine) <= multiset(st.flights)
      requires mine[k].g == g && mine[k].i == i && mine[k].phase.Unread?
      modifies this
      ensures Valid() && Follows(config, old(st), st) && |groups| == |old(groups)|
      ensures multiset(mine[k := fl]) <= multiset(st.flights)
      ensures fl.g == g && fl.i == i && Delivered(topic.codec, e, fl)
    {
      hide ShowsStream, ShowsGroups, ShowsGraves, Inv, Delivered, Follows, Codec.Lawful;
      ghost var s := st;
      Interference(multiset(mine));
      ghost var m := st;
      e, fl := ReadCountOf(g, i, answered, mine, k);
      FollowsTransitively(config, s, m, st);
    }

    /**
     AutoClaim: claim what XAUTOCLAIM chose among the idle pending entries, then read the delivery
     counts one by one while the others go on.
     */
    method AutoClaim(g: nat, chosen: seq<nat>, answered: seq<bool>)
        returns (entries: seq<Entry>, ghost mine: seq<Flight>)
      requires Valid() && g < |groups| && |answered| == |chosen|
      requires forall k :: 0 <= k < |chosen| ==> chosen[k] in groups[g].pending
      modifies this
      ensures Valid() && Follows(config, old(st), st)
      ensures |entries| == |mine| == |chosen| && multiset(mine) <= multiset(st.flights)
      ensures forall k :: 0 <= k < |mine| ==>
        mine[k].g == g && mine[k].i == chosen[k] && Delivered(topic.codec, entries[k], mine[k])
      ensures forall k :: 0 <= k < |entries| ==> entries[k].id == EntryId(chosen[k])
    {
      hide Store.Valid, Delivered, Follows;
      ghost var s0 := st;
      mine := ClaimAll(g, chosen);
      entries := [];
      while |entries| < |chosen|
        invariant |entries| <= |chosen| == |mine| && g < |groups|
        invariant Valid() && Follows(config, s0, st) && multiset(mine) <= multiset(st.flights)
        invariant forall k :: 0 <= k < |mine| ==> mine[k].g == g && mine[k].i == chosen[k]
        invariant forall k :: 0 <= k < |entries| ==> Delivered(topic.codec, entries[k], mine[k])
        invariant forall k :: |entries| <= k < |mine| ==> mine[k].phase.Unread?
      {
        ghost var s := st;
        var e, fl := NextClaimed(g, chosen[|entries|], answered[|entries|], mine, |entries|);
        FollowsTransitively(config, s0, s, st);
        mine := mine[|entries| := fl];
        entries := entries + [e];
      }
      IdsOfDelivered(topic.codec, entries, mine);
    }

    // ----- The promotion script

    /** One round of the script's loop. */
    method PromoteFirst(g: nat, raw: string, now: int)
      requires Valid() && g < |groups| && groups[g].retry != []
      requires groups[g].retry[0].raw == raw && groups[g].retry[0].score <= UnixMilli(now)
      modifies this`stream, this`groups, this`st
      ensures Valid() && Follows(config, old(st), st)
      ensures exists copy ::
                && Enabled(config, old(st), Promote(g, copy, now))
                && st == Do(config, old(st), Promote(g, copy, now))
      ensures stream == old(stream) + [LuaFields(topic.codec, raw)]
      ensures groups == old(groups[g := groups[g].(retry := groups[g].retry[1..])])
    {
      hide ShowsEntry, ShowsQueue, LuaFields, Do;
      ghost var t, copy := PromoteShows(topic, config, stream, groups, st, g, groups[g].retry[0], now);
      assert Rem(groups[g].retry, raw) == groups[g].retry[1..];
      stream := stream + [LuaFields(topic.codec, raw)];
      groups := groups[g := groups[g].(retry := Rem(groups[g].retry, raw))];
      StaysReachable(config, |topic.groups|, st, t);
      st := t;
    }

    lemma QueueIsSet(g: nat)
      requires Valid() && g < |groups|
      ensures IsSet(groups[g].retry)
    {
      hide ShowsQueue;
      SetOfQueue(topic, g, groups[g], st.groups[g]);
    }

    /**
     The script moves exactly the first min(limit, due) members, in (score, text) order, to the end of
     the stream, one entry each, and leaves every other member and every other group alone.
     */
    method PromoteDueRetries(g: nat, limit: int, now: int) returns (promoted: int)
      requires Valid() && g < |groups|
      modifies this`stream, this`groups, this`st
      ensures Valid() && Follows(config, old(st), st)
      ensures forall i :: 0 <= i < |old(groups[g].retry)| ==>
        (old(groups[g].retry)[i].score <= UnixMilli(now) <==> i < DueCount(old(groups[g].retry), UnixMilli(now)))
      ensures promoted == Min(if limit <= 0 then 1 else limit, DueCount(old(groups[g].retry), UnixMilli(now)))
      ensures stream == old(stream) + AllLuaFields(topic.codec, old(groups[g].retry)[..promoted])
      ensures groups == old(groups)[g := old(groups[g]).(retry := old(groups[g].retry)[promoted..])]
      ensures forall i, j :: 0 <= i < j < |old(groups[g].retry)| ==>
                var m, n := old(groups[g].retry)[i], old(groups[g].retry)[j];
                m.score < n.score || (m.score == n.score && exists k: nat :: SmallerAt(m.raw, n.raw, k))
    {
      hide Store.Valid, LuaFields, Follows, IsSet, DueCount;
      ghost var s0, stream0, groups0 := st, stream, groups;
      var z := groups[g].retry;
      QueueIsSet(g);
      SetInOrder(z);
      var most: nat := if limit <= 0 then 1 else limit;
      var items := RangeByScore(z, UnixMilli(now), most);
      RangeIsPrefix(z, UnixMilli(now), most);
      ghost var n := Min(most, DueCount(z, UnixMilli(now)));
      FollowsSelf(config, s0);
      promoted := 0;
      while promoted < |items|
        invariant 0 <= promoted <= |items| == n && Valid() && Follows(config, s0, st)
        invariant stream == stream0 + AllLuaFields(topic.codec, z[..promoted])
        invariant groups == groups0[g := groups0[g].(retry := z[promoted..])]
      {
        ghost var s := st;
        PromoteFirst(g, items[promoted], now);
        FollowsTransitively(config, s0, s, st);
        AllLuaFieldsAppend(topic.codec, z, promoted);
        promoted := promoted + 1;
      }
    }

    /** The handler's answer becomes part of the flight. */
    ghost method Called(f: nat, ok: bool)
      requires Valid() && Enabled(config, st, Call(f, ok))
      modifies `st
      ensures Valid() && st == Do(config, old(st), Call(f, ok)) && Follows(config, old(st), st)
    {
      hide ShowsEntry, ShowsGroup, ShowsDead;
      StepFollows(config, st, Call(f, ok));
      StaysReachable(config, |topic.groups|, st, Do(config, st, Call(f, ok)));
      st := Do(config, st, Call(f, ok));
    }

    /** A command that fails leaves the entry pending and ends the flight. */
    ghost method Forgotten(f: nat)
      requires Valid() && f < |st.flights|
      modifies `st
      ensures Valid() && st == Do(config, old(st), Crash(f)) && Follows(config, old(st), st)
    {
      hide ShowsEntry, ShowsGroup, ShowsDead;
      StepFollows(config, st, Crash(f));
      StaysReachable(config, |topic.groups|, st, Do(config, st, Crash(f)));
      st := Do(config, st, Crash(f));
    }
  }

  // ----- handleEntry

  predicate IsCalled(c: Config, fl: Flight)
    requires fl.phase.Ready?
  {
    fl.entry.Readable? && !TooLate(c, fl)
  }

  /** The flight once the handler, if it is to be called, has answered. */
  function Answered(c: Config, fl: Flight, ok: bool): Flight
    requires fl.phase.Ready?
  {
    if !IsCalled(c, fl) then fl
    else fl.(phase := if ok then Succeeded else Failed(fl.phase.attempt))
  }

  /** The one step that handleEntry owes an entry in the end. */
  function ClosingStep(c: Config, fl: Flight, f: nat, now: int): Step
    requires fl.entry.Readable? ==> !fl.phase.Unread?
  {
    if !fl.entry.Readable? then AckGarbage(f)
    else match fl.phase
      case Succeeded => AckDone(f)
      case Failed(_) => if !Exhausted(c, fl) then Retry(f, now) else if c.dlq then Bury(f) else Drop(f)
      case Ready(_) => Bury(f)
  }

  /** t is s after the one step that the flight calls for. */
  ghost predicate Closes(c: Config, s: State, t: State, f: nat, now: int) {
    && f < |s.flights| && !s.flights[f].phase.Unread?
    && var step := ClosingStep(c, s.flights[f], f, now);
       Enabled(c, s, step) && t == Do(c, s, step) && Follows(c, s, t)
  }

  /** The closing command was executed, or failed and left the entry pending. */
  ghost predicate Ends(c: Config, s: State, t: State, f: nat, now: int, up: bool) {
    if up then Closes(c, s, t, f, now) else f < |s.flights| && t == Do(c, s, Crash(f))
  }

  lemma ClosingRemoves(c: Config, s: State, f: nat, now: int)
    requires f < |s.flights| && !s.flights[f].phase.Unread? && Enabled(c, s, ClosingStep(c, s.flights[f], f, now))
    ensures Do(c, s, ClosingStep(c, s.flights[f], f, now)).flights == RemoveAt(s.flights, f)
  {
  }

  lemma EndsRemoves(c: Config, s: State, t: State, f: nat, now: int, up: bool, mine: multiset<Flight>)
    requires Ends(c, s, t, f, now, up) && mine + multiset{s.flights[f]} <= multiset(s.flights)
    ensures mine <= multiset(t.flights)
  {
    if up {
      hide Do, Enabled, ClosingStep;
      ClosingRemoves(c, s, f, now);
      BagRemove(s.flights, f);
    } else {
      BagRemove(s.flights, f);
    }
  }

  /** A flight that has been answered, or is not to be, can take its closing step. */
  lemma EnabledToClose(tp: Topic, c: Config, raw: seq<RawGroup>, s: State, f: nat, now: int)
    requires Inv(s) && ShowsGroups(tp, raw, s.groups) && |c.policies| == |tp.groups| && f < |s.flights|
    requires !s.flights[f].phase.Unread? && (s.flights[f].phase.Ready? ==> !IsCalled(c, s.flights[f]))
    ensures Enabled(c, s, ClosingStep(c, s.flights[f], f, now))
  {
    hide ShowsGroup;
    assert FlightOK(s, s.flights[f]);
  }

  /** The delivery agrees with its flight on the limit and the attempt. */
  lemma HandedLimit(tp: Topic, c: Config, d: Delivery, fl: Flight)
    requires Handed(tp, d, fl)
    ensures d.message.maxDeliver == Limit(c, fl.g, fl.entry.copy.v) >= 1 && d.attempt == fl.phase.attempt
    ensures d.id == EntryId(fl.i)
  {
  }

  lemma StillHanded(tp: Topic, c: Config, d: Delivery, fl: Flight)
    requires Handed(tp, d, fl) && fl.phase.Ready? && IsCalled(c, fl)
    ensures Handed(tp, d, Answered(c, fl, false))
  {
  }

  lemma DecodedIsHanded(tp: Topic, consumer: string, e: Entry, fl: Flight)
    requires Delivered(tp.codec, e, fl) && fl.g < |tp.groups|
    ensures
      var r := Decode(tp.codec, tp.name, tp.groups[fl.g], consumer, e);
      && fl.phase.Ready? && e.id == EntryId(fl.i)
      && if fl.entry.Readable? then r.Ok? && Handed(tp, r.value, fl) && r.value.consumer == consumer else r.Err?
  {
    DecodeByContent(tp.codec, tp.name, tp.groups[fl.g], consumer, e);
    if fl.entry.Readable? {
      AttemptIsSmall(e.values);
    }
  }

  lemma AttemptIsSmall(f: Fields)
    requires DecodeAttempt(f).Some?
    ensures 1 <= DecodeAttempt(f).value <= INT64_MAX
  {
  }

  ghost function CallableCount(c: Config, mine: seq<Flight>): nat
    requires forall k :: 0 <= k < |mine| ==> mine[k].phase.Ready?
  {
    if mine == [] then 0 else (if IsCalled(c, mine[0]) then 1 else 0) + CallableCount(c, mine[1..])
  }

  /** The flights from k on are the k-th and those after it. */
  lemma NextOf(c: Config, mine: seq<Flight>, k: nat)
    requires k < |mine| && forall j :: 0 <= j < |mine| ==> mine[j].phase.Ready?
    ensures CallableCount(c, mine[k..]) == (if IsCalled(c, mine[k]) then 1 else 0) + CallableCount(c, mine[k + 1..])
    ensures multiset(mine[k..]) == multiset(mine[k + 1..]) + multiset{mine[k]}
  {
    assert mine[k..] == [mine[k]] + mine[k + 1..];
    assert mine[k..][1..] == mine[k + 1..];
  }

  lemma NoneCallable(c: Config, mine: seq<Flight>)
    requires mine == []
    ensures CallableCount(c, mine) == 0
  {
  }

  lemma {:induction false} CallableAtMost(c: Config, mine: seq<Flight>)
    requires forall k :: 0 <= k < |mine| ==> mine[k].phase.Ready?
    ensures CallableCount(c, mine) <= |mine|
  {
    if mine != [] {
      CallableAtMost(c, mine[1..]);
    }
  }

  /** The handler calls made for these flights: one for each that is to be called, in order, with its delivery. */
  ghost predicate HandedTo(tp: Topic, c: Config, mine: seq<Flight>, ds: seq<Delivery>)
    requires forall k :: 0 <= k < |mine| ==> mine[k].phase.Ready?
  {
    if mine == [] then ds == []
    else
      var rest, fl := mine[..|mine| - 1], mine[|mine| - 1];
      if IsCalled(c, fl) then ds != [] && Handed(tp, ds[|ds| - 1], fl) && HandedTo(tp, c, rest, ds[..|ds| - 1])
      else HandedTo(tp, c, rest, ds)
  }

  lemma NoneHanded(tp: Topic, c: Config)
    ensures HandedTo(tp, c, [], [])
  {
  }

  lemma HandedAppend(tp: Topic, c: Config, mine: seq<Flight>, ds: seq<Delivery>, fl: Flight, more: seq<Delivery>)
    requires fl.phase.Ready? && forall k :: 0 <= k < |mine| ==> mine[k].phase.Ready?
    requires HandedTo(tp, c, mine, ds)
    requires if IsCalled(c, fl) then |more| == 1 && Handed(tp, more[0], fl) else more == []
    ensures HandedTo(tp, c, mine + [fl], ds + more)
  {
    hide Handed, IsCalled;
    assert (mine + [fl])[..|mine|] == mine;
    if IsCalled(c, fl) {
      assert (ds + more)[..|ds|] == ds;
    } else {
      assert ds + more == ds;
    }
  }

  lemma HandedNext(
      tp: Topic, c: Config, mine: seq<Flight>, k: nat, start: seq<Delivery>, before: seq<Delivery>,
      after: seq<Delivery>)
    requires k < |mine| && forall j :: 0 <= j < |mine| ==> mine[j].phase.Ready?
    requires start <= before <= after && HandedTo(tp, c, mine[..k], before[|start|..])
    requires |after| == |before| + if IsCalled(c, mine[k]) then 1 else 0
    requires IsCalled(c, mine[k]) ==> Handed(tp, after[|before|], mine[k])
    ensures HandedTo(tp, c, mine[..k + 1], after[|start|..])
  {
    hide Handed, IsCalled, HandedTo;
    HandedAppend(tp, c, mine[..k], before[|start|..], mine[k], after[|before|..]);
    assert mine[..k] + [mine[k]] == mine[..k + 1];
    assert before[|start|..] + after[|before|..] == after[|start|..];
  }

  lemma AllReady(cd: Codec, entries: seq<Entry>, mine: seq<Flight>)
    requires |entries| == |mine| && forall k :: 0 <= k < |mine| ==> Delivered(cd, entries[k], mine[k])
    ensures forall k :: 0 <= k < |mine| ==> mine[k].phase.Ready?
  {
    forall k | 0 <= k < |mine| ensures mine[k].phase.Ready? {
      assert Delivered(cd, entries[k], mine[k]);
    }
  }

  lemma BagSuffix<T>(s: seq<T>, t: seq<T>)
    ensures multiset(t) <= multiset(s + t)
  {
  }

  /** How the handling of one entry ended: the state its closing command found, its flight there, the state after. */
  datatype Ending = Ending(before: State, f: nat, after: State)

  ghost predicate IsEndOf(c: Config, fl: Flight, ok: bool, now: int, up: bool, end: Ending) {
    && fl.phase.Ready? && end.f < |end.before.flights| && end.before.flights[end.f] == Answered(c, fl, ok)
    && Ends(c, end.before, end.after, end.f, now, up)
  }

  function StateAfter(s: State, ends: seq<Ending>): State {
    if ends == [] then s else ends[|ends| - 1].after
  }

  /** The endings happened one after the other, from s on. */
  ghost predicate Chained(c: Config, s: State, ends: seq<Ending>) {
    ends == []
    || var rest := ends[..|ends| - 1];
       Chained(c, s, rest) && Follows(c, StateAfter(s, rest), ends[|ends| - 1].before)
  }

  /** Every entry of the batch up to |ends| has got its ending. */
  ghost predicate EndsBatch(c: Config, mine: seq<Flight>, oks: seq<bool>, now: int, ups: seq<bool>, ends: seq<Ending>) {
    && |ends| <= |mine| == |oks| == |ups|
    && forall k :: 0 <= k < |ends| ==> IsEndOf(c, mine[k], oks[k], now, ups[k], ends[k])
  }

  lemma EndsAppend(c: Config, mine: seq<Flight>, oks: seq<bool>, now: int, ups: seq<bool>, ends: seq<Ending>,
      end: Ending)
    requires EndsBatch(c, mine, oks, now, ups, ends) && |ends| < |mine|
    requires IsEndOf(c, mine[|ends|], oks[|ends|], now, ups[|ends|], end)
    ensures EndsBatch(c, mine, oks, now, ups, ends + [end])
  {
    hide IsEndOf;
  }

  lemma NoEndings(c: Config, s: State, mine: seq<Flight>, oks: seq<bool>, now: int, ups: seq<bool>)
    ensures Chained(c, s, []) && StateAfter(s, []) == s
    ensures |mine| == |oks| == |ups| ==> EndsBatch(c, mine, oks, now, ups, [])
  {
  }

  /** A batch of entries of one group, each delivered to the flight beside it. */
  ghost predicate IsBatch(cd: Codec, g: nat, entries: seq<Entry>, mine: seq<Flight>) {
    && |entries| == |mine|
    && (forall k :: 0 <= k < |mine| ==> mine[k].phase.Ready? && mine[k].g == g)
    && (forall k :: 0 <= k < |mine| ==> Delivered(cd, entries[k], mine[k]))
  }

  lemma BatchSizes(cd: Codec, g: nat, entries: seq<Entry>, mine: seq<Flight>)
    requires IsBatch(cd, g, entries, mine)
    ensures |entries| == |mine| && forall k :: 0 <= k < |mine| ==> mine[k].phase.Ready?
  {
  }

  lemma BatchItem(cd: Codec, g: nat, entries: seq<Entry>, mine: seq<Flight>, k: nat)
    requires IsBatch(cd, g, entries, mine) && k < |mine|
    ensures mine[k].phase.Ready? && mine[k].g == g && Delivered(cd, entries[k], mine[k])
  {
    hide Delivered;
  }

  lemma ChainedAppend(c: Config, s: State, ends: seq<Ending>, end: Ending)
    requires Chained(c, s, ends) && Follows(c, StateAfter(s, ends), end.before)
    ensures Chained(c, s, ends + [end]) && StateAfter(s, ends + [end]) == end.after
  {
    assert (ends + [end])[..|ends|] == ends;
  }

  /** One consumer's side of the service: reading, claiming and handling entries. */
  class Service {
    const store: Store
    const consumer: string
    ghost var calls: seq<Delivery>   // the handler calls this consumer has made

    ghost predicate Valid()
      reads this, store
    {
      store.Valid()
    }

    constructor (store: Store, consumer: string)
      requires store.Valid()
      ensures Valid() && this.store == store && calls == []
    {
      this.store := store;
      this.consumer := consumer;
      calls := [];
    }

    /** What handleEntry does after a handler error: dead-letter, give up, or queue the next attempt. */
    method CloseFailed(g: nat, d: Delivery, now: int, ghost f: nat)
      requires Valid() && f < |store.st.flights| && store.st.flights[f].g == g < |store.config.policies|
      requires store.st.flights[f].phase.Failed? && Handed(store.topic, d, store.st.flights[f])
      modifies store
      ensures Valid() && Closes(store.config, old(store.st), store.st, f, now)
      ensures Follows(store.config, old(store.st), store.st)
    {
      hide ShowsStream, ShowsGroups, ShowsGraves, Handed, Do;
      var c := store.config;
      ghost var fl := store.st.flights[f];
      HandedLimit(store.topic, c, d, fl);
      EnabledToClose(store.topic, c, store.groups, store.st, f, now);
      var nextAttempt := d.attempt + 1;
      if nextAttempt > d.message.maxDeliver {
        if c.dlq {
          store.MoveToDLQ(g, d, f);
        } else {
          store.Ack(g, d.id, Drop(f), f);
        }
      } else {
        var delay := RetryDelay(c.policies[g], nextAttempt);
        store.ScheduleRetry(g, d, now + delay, nextAttempt, f, now);
      }
    }

    /** The handler call, between whatever others do before and after it. */
    method CallHandler(d: Delivery, ok: bool, ghost fl: Flight, ghost mine: multiset<Flight>, ghost f0: nat)
      returns (ghost before: State, ghost f: nat)
      requires Valid() && mine + multiset{fl} <= multiset(store.st.flights)
      requires f0 < |store.st.flights| && store.st.flights[f0] == fl && fl.phase.Ready? && IsCalled(store.config, fl)
      requires fl.g < |store.topic.groups|
      modifies this`calls, store
      ensures Valid() && calls == old(calls) + [d] && Follows(store.config, old(store.st), store.st)
      ensures Enabled(store.config, old(store.st), Call(f0, ok))
      ensures Follows(store.config, Do(store.config, old(store.st), Call(f0, ok)), before)
      ensures before == store.st && f < |before.flights| && before.flights[f] == Answered(store.config, fl, ok)
      ensures mine + multiset{Answered(store.config, fl, ok)} <= multiset(store.st.flights)
    {
      hide ShowsStream, ShowsGroup, ShowsGraves, Inv, Follows;
      calls := calls + [d];
      ghost var flights0 := store.st.flights;
      store.Called(f0, ok);
      OthersStay(flights0, store.st.flights, f0, Answered(store.config, fl, ok), mine);
      ghost var s0, s1 := old(store.st), store.st;
      store.Interference(mine + multiset{Answered(store.config, fl, ok)});
      before := store.st;
      FollowsTransitively(store.config, s0, s1, before);
      f := BagIndex(before.flights, Answered(store.config, fl, ok));
    }

    method EndGarbage(g: nat, id: string, now: int, up: bool, ghost f: nat, ghost mine: multiset<Flight>)
      requires Valid() && f < |store.st.flights| && mine + multiset{store.st.flights[f]} <= multiset(store.st.flights)
      requires store.st.flights[f].g == g < |store.topic.groups| && EntryId(store.st.flights[f].i) == id
      requires !store.st.flights[f].entry.Readable? && store.st.flights[f].phase.Ready?
      modifies store
      ensures Valid() && mine <= multiset(store.st.flights) && Ends(store.config, old(store.st), store.st, f, now, up)
      ensures Follows(store.config, old(store.st), store.st)
    {
      hide ShowsStream, ShowsGraves, ShowsGroup, Handed, Do;
      ghost var s := store.st;
      EnabledToClose(store.topic, store.config, store.groups, s, f, now);
      if up {
        store.Ack(g, id, AckGarbage(f), f);
      } else {
        store.Forgotten(f);
      }
      EndsRemoves(store.config, s, store.st, f, now, up, mine);
    }

    method EndLate(g: nat, d: Delivery, now: int, up: bool, ghost f: nat, ghost mine: multiset<Flight>)
      requires Valid() && f < |store.st.flights| && mine + multiset{store.st.flights[f]} <= multiset(store.st.flights)
      requires store.st.flights[f].g == g < |store.topic.groups|
      requires store.st.flights[f].entry.Readable? && store.st.flights[f].phase.Ready?
          && TooLate(store.config, store.st.flights[f])
      requires Handed(store.topic, d, store.st.flights[f])
      modifies store
      ensures Valid() && mine <= multiset(store.st.flights) && Ends(store.config, old(store.st), store.st, f, now, up)
      ensures Follows(store.config, old(store.st), store.st)
    {
      hide ShowsStream, ShowsGraves, ShowsGroup, Handed, Do;
      ghost var s := store.st;
      EnabledToClose(store.topic, store.config, store.groups, s, f, now);
      if up {
        store.MoveToDLQ(g, d, f);
      } else {
        store.Forgotten(f);
      }
      EndsRemoves(store.config, s, store.st, f, now, up, mine);
    }

    method EndFailed(g: nat, d: Delivery, now: int, up: bool, ghost f: nat, ghost mine: multiset<Flight>)
      requires Valid() && f < |store.st.flights| && mine + multiset{store.st.flights[f]} <= multiset(store.st.flights)
      requires store.st.flights[f].g == g < |store.topic.groups|
      requires Handed(store.topic, d, store.st.flights[f]) && store.st.flights[f].phase.Failed?
      modifies store
      ensures Valid() && mine <= multiset(store.st.flights) && Ends(store.config, old(store.st), store.st, f, now, up)
      ensures Follows(store.config, old(store.st), store.st)
    {
      hide ShowsStream, ShowsGraves, ShowsGroup, Handed, Do;
      ghost var s := store.st;
      EnabledToClose(store.topic, store.config, store.groups, s, f, now);
      if up {
        CloseFailed(g, d, now, f);
      } else {
        store.Forgotten(f);
      }
      EndsRemoves(store.config, s, store.st, f, now, up, mine);
    }

    method EndDone(g: nat, id: string, now: int, up: bool, ghost f: nat, ghost mine: multiset<Flight>)
      requires Valid() && f < |store.st.flights| && mine + multiset{store.st.flights[f]} <= multiset(store.st.flights)
      requires store.st.flights[f].g == g < |store.topic.groups| && EntryId(store.st.flights[f].i) == id
      requires store.st.flights[f].entry.Readable? && store.st.flights[f].phase.Succeeded?
      modifies store
      ensures Valid() && mine <= multiset(store.st.flights) && Ends(store.config, old(store.st), store.st, f, now, up)
      ensures Follows(store.config, old(store.st), store.st)
    {
      hide ShowsStream, ShowsGraves, ShowsGroup, Handed, Do;
      ghost var s := store.st;
      EnabledToClose(store.topic, store.config, store.groups, s, f, now);
      if up {
        store.Ack(g, id, AckDone(f), f);
      } else {
        store.Forgotten(f);
      }
      EndsRemoves(store.config, s, store.st, f, now, up, mine);
    }

    /**
     handleEntry, on an entry this consumer was given. Between the delivery, the handler call and the
     closing command others act; `mine` are the consumer's other flights, `ok` is the handler's answer
     if it is called, and `up` says whether Redis answers the closing command.
     */
    method HandleEntry(g: nat, e: Entry, now: int, ok: bool, up: bool, ghost fl: Flight, ghost mine: multiset<Flight>)
      returns (ghost start: State, ghost f0: nat, ghost before: State, ghost f: nat)
      requires Valid() && fl.g == g < |store.topic.groups| && Delivered(store.topic.codec, e, fl)
      requires mine + multiset{fl} <= multiset(store.st.flights)
      modifies this`calls, store
      ensures Valid() && mine <= multiset(store.st.flights) && Follows(store.config, old(store.st), store.st)
      ensures Follows(store.config, old(store.st), start) && f0 < |start.flights| && start.flights[f0] == fl
      ensures IsCalled(store.config, fl) <==>
                && fl.entry.Readable?
                && (store.config.dlq ==> fl.phase.attempt <= fl.entry.copy.v.message.maxDeliver)
      ensures
        if IsCalled(store.config, fl) then
          && Enabled(store.config, start, Call(f0, ok))
              && Follows(store.config, Do(store.config, start, Call(f0, ok)), before)
          && |calls| == |old(calls)| + 1 && calls[..|old(calls)|] == old(calls)
              && Handed(store.topic, calls[|old(calls)|], fl) && calls[|old(calls)|].consumer == consumer
        else before == start && f == f0 && calls == old(calls)
      ensures Follows(store.config, old(store.st), before)
      ensures f < |before.flights| && before.flights[f] == Answered(store.config, fl, ok)
      ensures Ends(store.config, before, store.st, f, now, up)
    {
      hide ShowsStream, ShowsGroups, ShowsGraves, Inv, Follows, Delivered, Do, Handed, Decode, Ends, Enabled, Limit;
      store.Interference(mine + multiset{fl});
      start := store.st;
      f0 := BagIndex(start.flights, fl);
      before, f := start, f0;
      var r := Decode(store.topic.codec, store.topic.name, store.topic.groups[g], consumer, e);
      DecodedIsHanded(store.topic, consumer, e, fl);
      if r.Err? {
        EndGarbage(g, e.id, now, up, f, mine);
        FollowsTransitively(store.config, old(store.st), start, store.st);
        return;
      }
      var d := r.value;
      if d.message.maxDeliver <= 0 {
        d := d.(message := d.message.(maxDeliver := store.config.policies[g].maxDeliver));
      }
      HandedLimit(store.topic, store.config, r.value, fl);
      if d.attempt > d.message.maxDeliver && store.config.dlq {
        EndLate(g, d, now, up, f, mine);
        FollowsTransitively(store.config, old(store.st), start, store.st);
        return;
      }
      before, f := CallHandler(d, ok, fl, mine, f0);
      FollowsTransitively(store.config, old(store.st), start, before);
      if !ok {
        StillHanded(store.topic, store.config, d, fl);
        EndFailed(g, d, now, up, f, mine);
      } else {
        EndDone(g, d.id, now, up, f, mine);
      }
      FollowsTransitively(store.config, old(store.st), before, store.st);
    }

    method HandleOne(g: nat, e: Entry, now: int, ok: bool, up: bool, ghost fl: Flight, ghost mine: multiset<Flight>)
      returns (ghost end: Ending)
      requires Valid() && fl.g == g < |store.topic.groups| && Delivered(store.topic.codec, e, fl)
      requires mine + multiset{fl} <= multiset(store.st.flights)
      modifies this`calls, store
      ensures Valid() && mine <= multiset(store.st.flights) && Follows(store.config, old(store.st), store.st)
      ensures old(calls) <= calls && |calls| == |old(calls)| + (if IsCalled(store.config, fl) then 1 else 0)
      ensures IsCalled(store.config, fl) ==> Handed(store.topic, calls[|old(calls)|], fl)
      ensures Follows(store.config, old(store.st), end.before) && end.after == store.st
      ensures IsEndOf(store.config, fl, ok, now, up, end)
    {
      hide Store.Valid, Follows, Do, Handed, Ends, Enabled;
      ghost var start, f0, before, f := HandleEntry(g, e, now, ok, up, fl, mine);
      end := Ending(before, f, store.st);
    }

    /**
     The loop over a batch of entries: each in turn gets the step it is owed, or stays pending if Redis
     does not answer, whatever became of the others. `ends` are those steps.
     */
    method HandleAll(g: nat, entries: seq<Entry>, now: int, oks: seq<bool>, ups: seq<bool>, ghost mine: seq<Flight>)
      returns (ghost ends: seq<Ending>)
      requires Valid() && g < |store.topic.groups| && |entries| == |oks| == |ups|
      requires IsBatch(store.topic.codec, g, entries, mine) && multiset(mine) <= multiset(store.st.flights)
      modifies this`calls, store
      ensures Valid() && Follows(store.config, old(store.st), store.st)
      ensures old(calls) <= calls && |calls| == |old(calls)| + CallableCount(store.config, mine)
      ensures forall k :: 0 <= k < |mine| ==> mine[k].phase.Ready?
      ensures HandedTo(store.topic, store.config, mine, calls[|old(calls)|..])
      ensures EndsBatch(store.config, mine, oks, now, ups, ends) && |ends| == |mine|
      ensures Chained(store.config, old(store.st), ends) && StateAfter(old(store.st), ends) == store.st
    {
      hide Store.Valid, Follows, IsCalled, Delivered, IsEndOf, Chained, StateAfter, CallableCount, IsBatch, EndsBatch;
      hide Handed, HandedTo;
      NoEndings(store.config, store.st, mine, oks, now, ups);
      BatchSizes(store.topic.codec, g, entries, mine);
      ghost var s0, calls0 := store.st, calls;
      FollowsSelf(store.config, s0);
      var k := 0;
      ends := [];
      assert mine[0..] == mine && mine[..0] == [] && calls[|calls0|..] == [];
      NoneHanded(store.topic, store.config);
      while k < |entries|
        invariant 0 <= k == |ends| <= |entries| && Valid() && Follows(store.config, s0, store.st)
        invariant multiset(mine[k..]) <= multiset(store.st.flights)
        invariant calls0 <= calls
            && |calls| == |calls0| + CallableCount(store.config, mine) - CallableCount(store.config, mine[k..])
        invariant HandedTo(store.topic, store.config, mine[..k], calls[|calls0|..])
        invariant Chained(store.config, s0, ends) && StateAfter(s0, ends) == store.st
        invariant EndsBatch(store.config, mine, oks, now, ups, ends)
      {
        BatchItem(store.topic.codec, g, entries, mine, k);
        NextOf(store.config, mine, k);
        ghost var s, calls1 := store.st, calls;
        ghost var end := HandleOne(g, entries[k], now, oks[k], ups[k], mine[k], multiset(mine[k + 1..]));
        FollowsTransitively(store.config, s0, s, store.st);
        HandedNext(store.topic, store.config, mine, k, calls0, calls1, calls);
        ChainedAppend(store.config, s0, ends, end);
        EndsAppend(store.config, mine, oks, now, ups, ends, end);
        ends := ends + [end];
        k := k + 1;
      }
      NoneCallable(store.config, mine[k..]);
      assert mine[..k] == mine;
    }

    /** One turn of consumeLoop: the next entries are read, then each is handled to its end. `mid` is in between. */
    method ConsumeTurn(g: nat, readCount: int, now: int, oks: seq<bool>, ups: seq<bool>)
      returns (read: nat, ghost mid: State, ghost mine: seq<Flight>, ghost ends: seq<Ending>)
      requires Valid() && g < |store.topic.groups| && readCount > 0 && |oks| == |ups| == readCount
      modifies this`calls, store
      ensures Valid() && Follows(store.config, old(store.st), store.st)
      ensures read == |mine| == |ends| == Min(readCount, |old(store.stream)| - old(store.groups[g].cursor))
      ensures Follows(store.config, old(store.st), mid) && mid.flights == old(store.st).flights + mine
      ensures forall k :: 0 <= k < read ==>
        mine[k].g == g && mine[k].i == old(store.groups[g].cursor) + k && mine[k].phase.Ready?
      ensures EndsBatch(store.config, mine, oks[..read], now, ups[..read], ends)
      ensures Chained(store.config, mid, ends) && StateAfter(mid, ends) == store.st
      ensures old(calls) <= calls && |calls| == |old(calls)| + CallableCount(store.config, mine) <= |old(calls)| + read
      ensures HandedTo(store.topic, store.config, mine, calls[|old(calls)|..])
    {
      hide ShowsStream, ShowsGroup, ShowsGraves, Inv, Follows, Do, Enabled, IsCalled, Delivered, CallableCount;
      hide EndsBatch, Chained, StateAfter, HandedTo;
      ghost var s0 := store.st;
      var entries;
      entries, mine := store.ReadGroup(g, readCount);
      mid := store.st;
      read := |entries|;
      AllReady(store.topic.codec, entries, mine);
      BagSuffix(s0.flights, mine);
      CallableAtMost(store.config, mine);
      ends := HandleAll(g, entries, now, oks[..read], ups[..read], mine);
      FollowsTransitively(store.config, s0, mid, store.st);
    }

    /** One turn of claimLoop, on the entries that XAUTOCLAIM chose. */
    method ClaimTurn(g: nat, chosen: seq<nat>, answered: seq<bool>, now: int, oks: seq<bool>, ups: seq<bool>)
      returns (ghost mid: State, ghost mine: seq<Flight>, ghost ends: seq<Ending>)
      requires Valid() && g < |store.topic.groups| && |chosen| == |answered| == |oks| == |ups|
      requires forall k :: 0 <= k < |chosen| ==> chosen[k] in store.groups[g].pending
      modifies this`calls, store
      ensures Valid() && Follows(store.config, old(store.st), store.st)
      ensures |chosen| == |mine| == |ends|
      ensures Follows(store.config, old(store.st), mid) && multiset(mine) <= multiset(mid.flights)
      ensures forall k :: 0 <= k < |mine| ==> mine[k].g == g && mine[k].i == chosen[k] && mine[k].phase.Ready?
      ensures EndsBatch(store.config, mine, oks, now, ups, ends)
      ensures Chained(store.config, mid, ends) && StateAfter(mid, ends) == store.st
      ensures old(calls) <= calls && |calls| == |old(calls)| + CallableCount(store.config, mine)
      ensures |calls| <= |old(calls)| + |chosen|
      ensures HandedTo(store.topic, store.config, mine, calls[|old(calls)|..])
    {
      hide ShowsStream, ShowsGroup, ShowsGraves, Inv, Follows, Do, Enabled, IsCalled, Delivered, CallableCount;
      hide EndsBatch, Chained, StateAfter, HandedTo;
      ghost var s0 := store.st;
      var entries;
      entries, mine := store.AutoClaim(g, chosen, answered);
      mid := store.st;
      AllReady(store.topic.codec, entries, mine);
      CallableAtMost(store.config, mine);
      ends := HandleAll(g, entries, now, oks, ups, mine);
      FollowsTransitively(store.config, s0, mid, store.st);
    }
  }
}
