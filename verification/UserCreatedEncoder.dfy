/**
 The encoder of internal/adapters/secondary/kafka/user_created_avro.go: machine words are
 integers in their range, and shifts, xor, or and conversions are written out on them.
 */
module UserCreatedEncoder {
  import opened Wrappers
  import opened AvroBinary

  const WORD: int := 0x1_0000_0000_0000_0000

  // Conversion of a signed word to the unsigned word with the same bits, and back.
  function ToUint64(x: int): uint64 { x % WORD }

  function ToInt64(x: int): int64 {
    var u := x % WORD;
    if u < WORD / 2 then u else u - WORD
  }

  // value << 1 on an int64 (the top bit is lost), and value >> 63 (the sign is copied down).
  function ShiftLeftOne(v: int64): int64 { ToInt64(2 * v) }

  function ShiftRight63(v: int64): int64 { v / 0x8000_0000_0000_0000 }

  function Xor(a: nat, b: nat): nat {
    if a == 0 && b == 0 then 0 else (a % 2 + b % 2) % 2 + 2 * Xor(a / 2, b / 2)
  }

  function Or(a: nat, b: nat): nat {
    if a == 0 && b == 0 then 0
    else (if a % 2 == 1 || b % 2 == 1 then 1 else 0) + 2 * Or(a / 2, b / 2)
  }

  predicate AllOnes(m: nat) {
    m == 0 || (m % 2 == 1 && AllOnes(m / 2))
  }

  lemma OneMoreOne(m: nat) returns (n: nat)
    requires AllOnes(m)
    ensures n == 2 * m + 1 && AllOnes(n)
  {
    n := 2 * m + 1;
    assert n % 2 == 1 && n / 2 == m;
  }

  lemma EightMoreOnes(m: nat)
    requires AllOnes(m)
    ensures AllOnes(256 * m + 255)
  {
    var n := OneMoreOne(m);
    n := OneMoreOne(n);
    n := OneMoreOne(n);
    n := OneMoreOne(n);
    n := OneMoreOne(n);
    n := OneMoreOne(n);
    n := OneMoreOne(n);
    n := OneMoreOne(n);
    assert n == 256 * m + 255;
  }

  lemma WordOfOnes()
    ensures AllOnes(WORD - 1)
  {
    EightMoreOnes(0);
    EightMoreOnes(0xFF);
    EightMoreOnes(0xFFFF);
    EightMoreOnes(0xFF_FFFF);
    EightMoreOnes(0xFFFF_FFFF);
    EightMoreOnes(0xFF_FFFF_FFFF);
    EightMoreOnes(0xFFFF_FFFF_FFFF);
    EightMoreOnes(0xFF_FFFF_FFFF_FFFF);
  }

  predicate OneBit(p: nat) {
    p == 1 || (p > 0 && p % 2 == 0 && OneBit(p / 2))
  }

  lemma {:induction false} XorWithOnes(a: nat, m: nat)
    requires AllOnes(m) && a <= m
    ensures Xor(a, m) == m - a
  {
    if m > 0 { XorWithOnes(a / 2, m / 2); }
  }

  lemma {:induction false} XorWithZero(a: nat)
    ensures Xor(a, 0) == a
  {
    if a > 0 { XorWithZero(a / 2); }
  }

  lemma {:induction false} OrWithZero(a: nat)
    ensures Or(a, 0) == a
  {
    if a > 0 { OrWithZero(a / 2); }
  }

  lemma {:induction false} OrSetsTopBit(a: nat, p: nat)
    requires OneBit(p) && a < 2 * p
    ensures Or(a, p) == if a < p then a + p else a
  {
    if p == 1 {
      OrWithZero(a / 2);
    } else {
      OrSetsTopBit(a / 2, p / 2);
    }
  }

  lemma ContinuationBit()
    ensures OneBit(0x80)
  {
    assert OneBit(2) && OneBit(4);
    assert OneBit(8) && OneBit(16);
    assert OneBit(32) && OneBit(64);
  }

  lemma LowSevenBits(n: nat)
    ensures n % 128 == if n % 256 < 128 then n % 256 else n % 256 - 128
  {
  }

  // byte(encoded) | 0x80
  lemma ContinuationByte(n: nat)
    ensures Or(n % 256, 0x80) == n % 128 + 128
  {
    hide Or, OneBit;
    ContinuationBit();
    OrSetsTopBit(n % 256, 0x80);
    LowSevenBits(n);
  }

  // The xor of the two shifts is the zig-zag number of the specification.
  lemma ShiftsAreZigZag(v: int64)
    ensures Xor(ToUint64(ShiftLeftOne(v)), ToUint64(ShiftRight63(v))) == ZigZag(v)
  {
    var doubled := ToUint64(ShiftLeftOne(v));
    if v >= 0 {
      assert doubled == 2 * v && ToUint64(ShiftRight63(v)) == 0;
      XorWithZero(doubled);
    } else {
      assert doubled == 2 * v + WORD && ToUint64(ShiftRight63(v)) == WORD - 1;
      WordOfOnes();
      XorWithOnes(doubled, WORD - 1);
    }
  }

  /** bytes.Buffer, of which the encoder only appends. */
  class Buffer {
    var bytes: seq<byte>

    constructor ()
      ensures bytes == []
    {
      bytes := [];
    }

    method WriteByte(b: byte)
      modifies this
      ensures bytes == old(bytes) + [b]
    {
      bytes := bytes + [b];
    }

    method WriteBytes(bs: seq<byte>)
      modifies this
      ensures bytes == old(bytes) + bs
    {
      bytes := bytes + bs;
    }
  }

  method WriteAvroLong(buf: Buffer, value: int64)
    modifies buf
    ensures buf.bytes == old(buf.bytes) + AvroLong(value)
  {
    hide Xor, Or;
    ShiftsAreZigZag(value);
    var encoded: uint64 := Xor(ToUint64(ShiftLeftOne(value)), ToUint64(ShiftRight63(value)));
    while encoded >= 0x80
      invariant buf.bytes + Groups(encoded) == old(buf.bytes) + AvroLong(value)
    {
      ContinuationByte(encoded);
      ghost var before := buf.bytes;
      buf.WriteByte(Or(encoded % 256, 0x80));
      assert buf.bytes + Groups(encoded / 128) == before + Groups(encoded);
      encoded := encoded / 128;
    }
    buf.WriteByte(encoded % 256);
  }

  method WriteAvroString(buf: Buffer, value: seq<byte>)
    requires |value| < 0x8000_0000_0000_0000  // a Go string's length is an int
    modifies buf
    ensures buf.bytes == old(buf.bytes) + AvroString(value)
  {
    WriteAvroLong(buf, |value|);
    buf.WriteBytes(value);
  }

  datatype Event = Event(userId: seq<byte>, provider: seq<byte>, millis: int64)

  ghost predicate GoStrings(e: Event) {
    |e.userId| < 0x8000_0000_0000_0000 && |e.provider| < 0x8000_0000_0000_0000
  }

  // What the schema registry answers, should it be asked.
  datatype Body = Unreadable | NotJson | SchemaId(id: int64)
  datatype Reply = TransportError | Response(status: int, body: Body)
  datatype EncodeError = RegisterFailed | ReadFailed | BadStatus(status: int) | DecodeFailed | InvalidId(id: int64)

  function Registered(reply: Reply): Result<int64, EncodeError> {
    match reply
    case TransportError => Failure(RegisterFailed)
    case Response(status, body) =>
      if body.Unreadable? then Failure(ReadFailed)
      else if status < 200 || status >= 300 then Failure(BadStatus(status))
      else if body.NotJson? then Failure(DecodeFailed)
      else if body.id <= 0 then Failure(InvalidId(body.id))
      else Success(body.id)
  }

  // One call against the cached id (zero: not registered yet): the answer and the new cache.
  function Ensured(cached: int64, reply: Reply): (Result<int64, EncodeError>, int64) {
    if cached != 0 then (Success(cached), cached)
    else match Registered(reply)
      case Success(id) => (Success(id), id)
      case Failure(e) => (Failure(e), 0)
  }

  function BigEndian32(id: int): seq<byte> {
    [id / 0x100_0000 % 256, id / 0x1_0000 % 256, id / 0x100 % 256, id % 256]
  }

  // The frame of Confluent's wire format around the record of the UserCreated schema.
  function FrameBytes(id: int64, e: Event): seq<byte>
    requires GoStrings(e)
  {
    [0] + BigEndian32(id % 0x1_0000_0000) + AvroString(e.userId) + AvroString(e.provider) + AvroLong(e.millis)
  }

  function Encoded(cached: int64, e: Event, reply: Reply): Result<seq<byte>, EncodeError>
    requires GoStrings(e)
  {
    match Ensured(cached, reply).0
    case Success(id) => Success(FrameBytes(id, e))
    case Failure(error) => Failure(error)
  }

  class SchemaRegistryEncoder {
    var schemaID: int64

    constructor ()
      ensures schemaID == 0
    {
      schemaID := 0;
    }

    method EnsureSchemaID(reply: Reply) returns (r: Result<int64, EncodeError>)
      modifies this
      ensures (r, schemaID) == Ensured(old(schemaID), reply)
    {
      if schemaID != 0 {
        return Success(schemaID);
      }
      match reply {
        case TransportError => return Failure(RegisterFailed);
        case Response(status, body) =>
          if body.Unreadable? { return Failure(ReadFailed); }
          if status < 200 || status >= 300 { return Failure(BadStatus(status)); }
          if body.NotJson? { return Failure(DecodeFailed); }
          if body.id <= 0 { return Failure(InvalidId(body.id)); }
          schemaID := body.id;
          return Success(schemaID);
      }
    }

    method Encode(e: Event, reply: Reply) returns (r: Result<seq<byte>, EncodeError>)
      requires GoStrings(e)
      modifies this
      ensures r == Encoded(old(schemaID), e, reply)
      ensures schemaID == Ensured(old(schemaID), reply).1
    {
      var id := EnsureSchemaID(reply);
      if id.Failure? {
        return Failure(id.error);
      }
      var payload := new Buffer();
      payload.WriteByte(0);
      payload.WriteBytes(BigEndian32(id.value % 0x1_0000_0000));
      WriteAvroString(payload, e.userId);
      WriteAvroString(payload, e.provider);
      WriteAvroLong(payload, e.millis);
      assert payload.bytes == FrameBytes(id.value, e);
      return Success(payload.bytes);
    }
  }

  lemma {:induction false} BigEndianRoundTrip(id: nat)
    requires id < 0x1_0000_0000
    ensures ReadBigEndian32(BigEndian32(id)) == id
  {
    var q1, q2, q3 := id / 0x100, id / 0x1_0000, id / 0x100_0000;
    assert q2 == q1 / 256 && q3 == q2 / 256;
    assert id == q1 * 256 + id % 256 && q1 == q2 * 256 + q1 % 256 && q2 == q3 * 256 + q2 % 256;
  }

  lemma FrameLayout(id: int64, e: Event)
    requires GoStrings(e)
    ensures FrameBytes(id, e) ==
            [0] + BigEndian32(id % 0x1_0000_0000) +
            (AvroString(e.userId) + (AvroString(e.provider) + AvroLong(e.millis)))
  {
  }

  // A consumer of the frame reads back the record and the low 32 bits of the id, nothing left.
  lemma FrameRoundTrip(id: int64, e: Event)
    requires GoStrings(e)
    ensures ReadFrame(FrameBytes(id, e)) == Some(Frame(id % 0x1_0000_0000, e.userId, e.provider, e.millis))
  {
    var low := id % 0x1_0000_0000;
    var bs := FrameBytes(id, e);
    var header := [0] + BigEndian32(low);
    var afterProvider := AvroLong(e.millis);
    var afterUser := AvroString(e.provider) + afterProvider;
    FrameLayout(id, e);
    assert bs[5..] == AvroString(e.userId) + afterUser;
    assert bs[1..5] == BigEndian32(low);
    BigEndianRoundTrip(low);
    StringRoundTrip(e.userId, afterUser);
    StringRoundTrip(e.provider, afterProvider);
    LongRoundTrip(e.millis, []);
    assert afterProvider + [] == afterProvider;
  }

  // The registry's id itself survives exactly when it fits the four bytes of the header.
  lemma SchemaIdSurvivesIffItFits(id: int64, e: Event)
    requires GoStrings(e) && id > 0
    ensures ReadFrame(FrameBytes(id, e)).Some?
    ensures ReadFrame(FrameBytes(id, e)).value.schemaId == id <==> id < 0x1_0000_0000
  {
    hide ReadFrame, FrameBytes;
    FrameRoundTrip(id, e);
  }

  datatype Call = Call(event: Event, reply: Reply)

  // The results of a whole life of calls on one encoder.
  function Results(cached: int64, calls: seq<Call>): (rs: seq<Result<seq<byte>, EncodeError>>)
    requires forall c <- calls :: GoStrings(c.event)
    ensures |rs| == |calls|
    decreases |calls|
  {
    if calls == [] then []
    else
      [Encoded(cached, calls[0].event, calls[0].reply)] +
      Results(Ensured(cached, calls[0].reply).1, calls[1..])
  }

  // Once an id is cached every later call succeeds with it, whatever the registry would say.
  lemma {:induction false} CachedIdIsForever(cached: int64, calls: seq<Call>, i: nat)
    requires forall c <- calls :: GoStrings(c.event)
    requires cached != 0 && i < |calls|
    ensures Results(cached, calls)[i] == Success(FrameBytes(cached, calls[i].event))
  {
    if i > 0 {
      CachedIdIsForever(cached, calls[1..], i - 1);
    }
  }

  // From a fresh encoder: after the first success all calls succeed, and any two successful
  // messages decode to the same schema id, the first positive id the registry returned.
  lemma {:induction false} OneSchemaIdPerEncoder(calls: seq<Call>, i: nat, j: nat)
    requires forall c <- calls :: GoStrings(c.event)
    requires i <= j < |calls| && Results(0, calls)[i].Success?
    ensures Results(0, calls)[j].Success?
    ensures exists id: int64 ::
              && id > 0
              && Results(0, calls)[i] == Success(FrameBytes(id, calls[i].event))
              && Results(0, calls)[j] == Success(FrameBytes(id, calls[j].event))
  {
    var cached := Ensured(0, calls[0].reply).1;
    if cached != 0 {
      SuccessfulFrame(cached, calls, i);
      SuccessfulFrame(cached, calls, j);
    } else {
      OneSchemaIdPerEncoder(calls[1..], i - 1, j - 1);
    }
  }

  lemma ResultsUnfold(cached: int64, calls: seq<Call>)
    requires forall c <- calls :: GoStrings(c.event)
    requires calls != []
    ensures Results(cached, calls)[0] == Encoded(cached, calls[0].event, calls[0].reply)
    ensures Results(cached, calls)[1..] == Results(Ensured(cached, calls[0].reply).1, calls[1..])
  {
  }

  lemma {:induction false} SuccessfulFrame(id: int64, calls: seq<Call>, i: nat)
    requires forall c <- calls :: GoStrings(c.event)
    requires i < |calls| && id == Ensured(0, calls[0].reply).1 && id != 0
    ensures Results(0, calls)[i] == Success(FrameBytes(id, calls[i].event))
  {
    ResultsUnfold(0, calls);
    if i > 0 {
      CachedIdIsForever(id, calls[1..], i - 1);
      assert Results(0, calls)[i] == Results(0, calls)[1..][i - 1];
    }
  }

  // ---- Which calls succeed, with which id, and how the others fail ----

  // The registry accepted the schema: a status from 200 to 299 and a positive id.
  predicate Accepts(reply: Reply) {
    reply.Response? && 200 <= reply.status < 300 && reply.body.SchemaId? && reply.body.id > 0
  }

  // The first refused answer decides how a call fails.
  predicate FailsBy(reply: Reply, error: EncodeError) {
    match error
    case RegisterFailed => reply == TransportError
    case ReadFailed => reply.Response? && reply.body == Unreadable
    case BadStatus(status) =>
      reply.Response? && reply.body != Unreadable && reply.status == status && !(200 <= status < 300)
    case DecodeFailed => reply.Response? && 200 <= reply.status < 300 && reply.body == NotJson
    case InvalidId(id) => reply.Response? && 200 <= reply.status < 300 && reply.body == SchemaId(id) && id <= 0
  }

  // Every answer that is not accepted fails a call in exactly one way.
  lemma RefusedAnswers(reply: Reply, e: EncodeError, e': EncodeError)
    ensures FailsBy(reply, e) && FailsBy(reply, e') ==> e == e'
    ensures Accepts(reply) ==> !FailsBy(reply, e)
  {
  }

  lemma FirstCall(e: Event, reply: Reply)
    requires GoStrings(e)
    ensures var r := Encoded(0, e, reply);
            if Accepts(reply) then r == Success(FrameBytes(reply.body.id, e)) && Ensured(0, reply).1 == reply.body.id
            else r.Failure? && FailsBy(reply, r.error) && Ensured(0, reply).1 == 0
  {
  }

  // Before the first accepted answer every call fails by its own answer; from that call on every
  // call succeeds with the id of that answer.
  lemma {:induction false} CallsUntilAccepted(calls: seq<Call>, k: nat)
    requires forall c <- calls :: GoStrings(c.event)
    requires k <= |calls| && (forall j :: 0 <= j < k ==> !Accepts(calls[j].reply)) && (k < |calls| ==> Accepts(calls[k].reply))
    ensures var rs := Results(0, calls);
            && (forall j :: 0 <= j < k ==> rs[j].Failure? && FailsBy(calls[j].reply, rs[j].error))
            && (forall j :: k <= j < |calls| ==> rs[j] == Success(FrameBytes(calls[k].reply.body.id, calls[j].event)))
    decreases |calls|
  {
    if calls != [] {
      FirstCall(calls[0].event, calls[0].reply);
      ResultsUnfold(0, calls);
      var rs := Results(0, calls);
      hide Encoded, Ensured, FrameBytes, FailsBy, Accepts, Results;
      if k == 0 {
        forall j | 0 <= j < |calls| ensures rs[j] == Success(FrameBytes(calls[0].reply.body.id, calls[j].event)) {
          if j > 0 {
            CachedIdIsForever(calls[0].reply.body.id, calls[1..], j - 1);
            assert rs[j] == rs[1..][j - 1];
          }
        }
      } else {
        CallsUntilAccepted(calls[1..], k - 1);
        forall j | 1 <= j < |calls| ensures rs[j] == Results(0, calls[1..])[j - 1] { assert rs[j] == rs[1..][j - 1]; }
      }
    }
  }

  // From a new encoder, call i succeeds if and only if the registry has accepted the schema in
  // answer to it or to an earlier call. The message then reads back as the event with the id of
  // the first accepted answer; otherwise the error is that of the call's own answer.
  lemma EncodeSucceedsIff(calls: seq<Call>, i: nat)
    requires (forall c <- calls :: GoStrings(c.event)) && i < |calls|
    ensures var r, e := Results(0, calls)[i], calls[i].event;
            && (r.Success? <==> exists k :: 0 <= k <= i && Accepts(calls[k].reply))
            && (r.Success? ==>
                exists k :: 0 <= k <= i && Accepts(calls[k].reply) && (forall j :: 0 <= j < k ==> !Accepts(calls[j].reply)) &&
                  ReadFrame(r.value) == Some(Frame(calls[k].reply.body.id % 0x1_0000_0000, e.userId, e.provider, e.millis)))
            && (r.Failure? ==> FailsBy(calls[i].reply, r.error))
  {
    var k := FirstAccepted(calls);
    CallsUntilAccepted(calls, k);
    hide Accepts, FailsBy, Results, ReadFrame, FrameBytes;
    if k <= i {
      assert calls[i] in calls;
      FrameRoundTrip(calls[k].reply.body.id, calls[i].event);
    }
  }

  function FirstAccepted(calls: seq<Call>): (k: nat)
    ensures k <= |calls| && (forall j :: 0 <= j < k ==> !Accepts(calls[j].reply)) && (k < |calls| ==> Accepts(calls[k].reply))
  {
    if calls == [] || Accepts(calls[0].reply) then 0 else 1 + FirstAccepted(calls[1..])
  }
}
