/** The messages the client exchanges: gRPC frames, protobuf fields, and the
    three response parsers against a reading of the payload as fields. */
module WireMessages {
  import opened Base
  import opened WireCodec

  // -------------------------------------------------------------- gRPC frames

  function BigEndian(n: nat): (r: Bytes)
    requires n < UINT32_LIMIT
    ensures |r| == 4
  {
    [n / 0x100_0000, n / 0x1_0000 % 256, n / 256 % 256, n % 256]
  }

  /** Folds bytes most significant first. */
  function FromBigEndian(bytes: Bytes): nat {
    if bytes == [] then 0 else 256 * FromBigEndian(bytes[..|bytes| - 1]) + bytes[|bytes| - 1]
  }

  function Frame(payload: Bytes): Bytes
    requires |payload| < UINT32_LIMIT
  {
    [0] + BigEndian(|payload|) + payload
  }

  function Payload(data: Bytes): Result<Bytes, DecodeError> {
    if |data| < 5 || data[0] != 0 then Failure(MalformedResponse)
    else
      var length := FromBigEndian(data[1..5]);
      if 5 + length > |data| then Failure(MalformedResponse) else Success(data[5..5 + length])
  }

  /** The frame header, then the payload; a payload of 4 GiB traps. */
  method GrpcFrame(payload: Bytes) returns (frame: Bytes)
    requires |payload| < UINT32_LIMIT
    ensures frame == Frame(payload)
  {
    frame := [0];
    frame := frame + BigEndian(|payload|);
    frame := frame + payload;
  }

  method GrpcPayload(data: Bytes) returns (r: Result<Bytes, DecodeError>)
    ensures r == Payload(data)
  {
    if !(|data| >= 5 && data[0] == 0) { return Failure(MalformedResponse); }
    var length := 0;
    for i := 0 to 4
      invariant length == FromBigEndian(data[1..1 + i])
    {
      assert data[1..1 + i + 1][..i] == data[1..1 + i];
      length := length * 256 + data[1 + i];
    }
    if !(5 + length <= |data|) { return Failure(MalformedResponse); }
    return Success(data[5..5 + length]);
  }

  lemma BigEndianReadsBack(n: nat)
    requires n < UINT32_LIMIT
    ensures FromBigEndian(BigEndian(n)) == n
  {
    var b := BigEndian(n);
    var b0: int, b1: int, b2: int, b3: int := b[0], b[1], b[2], b[3];
    assert b[..3] == [b[0], b[1], b[2]] && b[..3][..2] == [b[0], b[1]] && b[..3][..2][..1] == [b[0]];
    assert FromBigEndian(b[..3][..2][..1]) == b0 by { assert b[..3][..2][..1][..0] == []; }
    assert FromBigEndian(b[..3][..2]) == 256 * b0 + b1;
    assert FromBigEndian(b[..3]) == 256 * (256 * b0 + b1) + b2;
    assert n / 256 == n / 0x1_0000 * 256 + n / 256 % 256 by { assert n / 0x1_0000 == n / 256 / 256; }
    assert n / 0x1_0000 == n / 0x100_0000 * 256 + n / 0x1_0000 % 256 by { assert n / 0x100_0000 == n / 0x1_0000 / 256; }
  }

  /** The payload comes back whatever follows the frame. */
  lemma FrameRoundTrip(payload: Bytes, rest: Bytes)
    requires |payload| < UINT32_LIMIT
    ensures Payload(Frame(payload) + rest) == Success(payload)
  {
    var data := Frame(payload) + rest;
    BigEndianReadsBack(|payload|);
    assert data[1..5] == BigEndian(|payload|);
    assert data[5..5 + |payload|] == payload;
  }

  // -------------------------------------------------------------------- fields

  datatype WireValue = Number(value: UInt64) | Fixed64(bits: Bytes) | Delimited(bytes: Bytes) | Fixed32(bits: Bytes)

  datatype Field = Field(number: nat, value: WireValue)

  function WireType(v: WireValue): nat {
    match v
    case Number(_) => 0
    case Fixed64(_) => 1
    case Delimited(_) => 2
    case Fixed32(_) => 5
  }

  predicate WellFormed(f: Field) {
    && f.number * 8 + 7 < UINT64_LIMIT
    && match f.value
       case Number(_) => true
       case Fixed64(bits) => |bits| == 8
       case Delimited(bytes) => |bytes| <= INT64_MAX
       case Fixed32(bits) => |bits| == 4
  }

  function ValueBytes(v: WireValue): Bytes
    requires v.Delimited? ==> |v.bytes| <= INT64_MAX
  {
    match v
    case Number(value) => Varint(value)
    case Fixed64(bits) => bits
    case Delimited(bytes) => Varint(|bytes|) + bytes
    case Fixed32(bits) => bits
  }

  function FieldKey(f: Field): (key: UInt64)
    requires WellFormed(f)
    ensures key / 8 == f.number && key % 8 == WireType(f.value)
  {
    f.number * 8 + WireType(f.value)
  }

  function FieldBytes(f: Field): Bytes
    requires WellFormed(f)
  {
    Varint(FieldKey(f)) + ValueBytes(f.value)
  }

  predicate AllWellFormed(fields: seq<Field>) { forall i :: 0 <= i < |fields| ==> WellFormed(fields[i]) }

  function FieldsBytes(fields: seq<Field>): Bytes
    requires AllWellFormed(fields)
  {
    if fields == [] then [] else FieldBytes(fields[0]) + FieldsBytes(fields[1..])
  }

  /** The value of a wire type at `index`, and where it ends. */
  function ValueAt(data: Bytes, wireType: nat, index: nat): (r: Option<(WireValue, nat)>)
    requires index <= |data|
    ensures r.Some? ==> index < r.value.1 <= |data|
  {
    if wireType == 0 then
      var v := VarintAt(data, index);
      if v.None? then None else Some((Number(v.value.0), v.value.1))
    else if wireType == 1 then
      if |data| - index < 8 then None else Some((Fixed64(data[index..index + 8]), index + 8))
    else if wireType == 2 then
      var length := VarintAt(data, index);
      if length.None? || length.value.0 > INT64_MAX || |data| - length.value.1 < length.value.0 then None
      else
        var end := length.value.1 + length.value.0;
        Some((Delimited(data[length.value.1..end]), end))
    else if wireType == 5 then
      if |data| - index < 4 then None else Some((Fixed32(data[index..index + 4]), index + 4))
    else None
  }

  function FieldAt(data: Bytes, index: nat): (r: Option<(Field, nat)>)
    requires index <= |data|
    ensures r.Some? ==> index < r.value.1 <= |data|
  {
    var key := VarintAt(data, index);
    if key.None? then None
    else
      var v := ValueAt(data, key.value.0 % 8, key.value.1);
      if v.None? then None else Some((Field(key.value.0 / 8, v.value.0), v.value.1))
  }

  /** The whole payload from `index` on, read as fields. */
  function FieldsAt(data: Bytes, index: nat): Option<seq<Field>>
    requires index <= |data|
    decreases |data| - index
  {
    if index == |data| then Some([])
    else
      var f := FieldAt(data, index);
      if f.None? then None
      else
        var rest := FieldsAt(data, f.value.1);
        if rest.None? then None else Some([f.value.0] + rest.value)
  }

  lemma DelimitedAt(data: Bytes, index: nat, length: nat, start: nat)
    requires index <= |data| && VarintAt(data, index) == Some((length, start))
    requires length <= INT64_MAX && start + length <= |data|
    ensures ValueAt(data, 2, index) == Some((Delimited(data[start..start + length]), start + length))
  {
    hide VarintAt;
  }

  lemma DelimitedReadsBack(data: Bytes, index: nat, bytes: Bytes)
    requires |bytes| <= INT64_MAX && Holds(data, index, Varint(|bytes|) + bytes)
    ensures ValueAt(data, 2, index) == Some((Delimited(bytes), index + |Varint(|bytes|) + bytes|))
  {
    hide Varint, VarintAt, ValueAt;
    HoldsBoth(data, index, Varint(|bytes|), bytes);
    VarintReadsBack(data, index, |bytes|);
    DelimitedAt(data, index, |bytes|, index + |Varint(|bytes|)|);
  }

  lemma ValueReadsBack(data: Bytes, index: nat, f: Field)
    requires WellFormed(f) && Holds(data, index, ValueBytes(f.value))
    ensures ValueAt(data, WireType(f.value), index) == Some((f.value, index + |ValueBytes(f.value)|))
  {
    hide Varint, VarintAt;
    match f.value {
      case Number(value) => VarintReadsBack(data, index, value);
      case Fixed64(bits) =>
      case Delimited(bytes) => DelimitedReadsBack(data, index, bytes);
      case Fixed32(bits) =>
    }
  }

  /** Reading a key and then a value reads a field. */
  lemma FieldOfKey(data: Bytes, index: nat, key: UInt64, middle: nat, v: WireValue, end: nat)
    requires index <= |data| && VarintAt(data, index) == Some((key, middle)) && middle <= |data|
    requires ValueAt(data, key % 8, middle) == Some((v, end))
    ensures FieldAt(data, index) == Some((Field(key / 8, v), end))
  {
    hide VarintAt, ValueAt;
  }

  lemma FieldReadsBack(data: Bytes, index: nat, f: Field)
    requires WellFormed(f) && Holds(data, index, FieldBytes(f))
    ensures FieldAt(data, index) == Some((f, index + |FieldBytes(f)|))
  {
    hide FieldAt, VarintAt, ValueAt, Varint, ValueBytes;
    var key := Varint(FieldKey(f));
    var middle := index + |key|;
    HoldsBoth(data, index, key, ValueBytes(f.value));
    VarintReadsBack(data, index, FieldKey(f));
    ValueReadsBack(data, middle, f);
    FieldOfKey(data, index, FieldKey(f), middle, f.value, middle + |ValueBytes(f.value)|);
  }

  lemma FieldsUnfold(data: Bytes, index: nat, f: Field, end: nat, rest: seq<Field>)
    requires index < |data| && FieldAt(data, index) == Some((f, end)) && FieldsAt(data, end) == Some(rest)
    ensures FieldsAt(data, index) == Some([f] + rest)
  {
  }

  lemma HeldAhead(data: Bytes, index: nat, first: Bytes, rest: Bytes)
    requires index <= |data| && data[index..] == first + rest
    ensures Holds(data, index, first) && index + |first| <= |data| && data[index + |first|..] == rest
  {
    assert data[index..index + |first|] == (first + rest)[..|first|];
    assert data[index + |first|..] == (first + rest)[|first|..];
  }

  /** Any sequence of well-formed fields reads back as itself. */
  lemma {:induction false} FieldsReadBack(data: Bytes, index: nat, fields: seq<Field>)
    requires AllWellFormed(fields) && index <= |data| && data[index..] == FieldsBytes(fields)
    ensures FieldsAt(data, index) == Some(fields)
    decreases |fields|
  {
    if fields != [] {
      var first := FieldBytes(fields[0]);
      assert |first| > 0;
      HeldAhead(data, index, first, FieldsBytes(fields[1..]));
      FieldReadsBack(data, index, fields[0]);
      FieldsReadBack(data, index + |first|, fields[1..]);
      FieldsUnfold(data, index, fields[0], index + |first|, fields[1..]);
      assert [fields[0]] + fields[1..] == fields;
    } else {
      assert index == |data|;
    }
  }

  /** The request messages: one length-delimited field with its key byte. */
  method RawTransactionMessage(rawTransaction: Bytes) returns (message: Bytes)
    requires |rawTransaction| <= INT64_MAX
    ensures message == FieldsBytes([Field(1, Delimited(rawTransaction))])
  {
    message := [0x0A];
    var length := EncodeVarint(|rawTransaction|);
    message := message + length;
    message := message + rawTransaction;
    Regrouped([0x0A], length, rawTransaction);
    OneField(Field(1, Delimited(rawTransaction)), 0x0A);
  }

  method TransactionFilterMessage(transactionId: Bytes) returns (message: Bytes)
    requires |transactionId| <= INT64_MAX
    ensures message == FieldsBytes([Field(3, Delimited(transactionId))])
  {
    message := [0x1A];
    var length := EncodeVarint(|transactionId|);
    message := message + length;
    message := message + transactionId;
    Regrouped([0x1A], length, transactionId);
    OneField(Field(3, Delimited(transactionId)), 0x1A);
  }

  lemma OneField(f: Field, key: Byte)
    requires WellFormed(f) && key < 128 && key == f.number * 8 + WireType(f.value)
    ensures FieldsBytes([f]) == [key] + ValueBytes(f.value)
  {
    OneFieldBytes(f);
    ShortKey(key);
  }

  lemma ShortKey(key: Byte)
    requires key < 128
    ensures Varint(key) == [key]
  {
  }

  lemma OneFieldBytes(f: Field)
    requires WellFormed(f)
    ensures FieldsBytes([f]) == FieldBytes(f)
  {
    assert [f][1..] == [];
    assert FieldBytes(f) + [] == FieldBytes(f);
  }

  /** A request message reads back as the one field it was made of. */
  lemma RequestReadsBack(number: nat, bytes: Bytes)
    requires number < 15 && |bytes| <= INT64_MAX
    ensures FieldsAt(FieldsBytes([Field(number, Delimited(bytes))]), 0) == Some([Field(number, Delimited(bytes))])
  {
    var message := FieldsBytes([Field(number, Delimited(bytes))]);
    assert message[0..] == message;
    FieldsReadBack(message, 0, [Field(number, Delimited(bytes))]);
  }

  // ------------------------------------------------- what a response says

  datatype Observation = Mempool | Forked | Mined(height: UInt64)

  function Observed(height: UInt64): Observation {
    if height == 0 then Mempool else if height == UINT64_LIMIT - 1 then Forked else Mined(height)
  }

  predicate IsNumber(f: Field, number: nat) { f.number == number && f.value.Number? }

  predicate IsText(f: Field, number: nat) { f.number == number && f.value.Delimited? }

  /** The last value of a numeric field, or the default of an absent one. */
  function LastNumber(fields: seq<Field>, number: nat): UInt64 {
    if fields == [] then 0
    else
      var last := fields[|fields| - 1];
      if IsNumber(last, number) then last.value.value else LastNumber(fields[..|fields| - 1], number)
  }

  /** The first value of a numeric field. */
  function FirstNumber(fields: seq<Field>, number: nat): Option<UInt64> {
    if fields == [] then None
    else if IsNumber(fields[0], number) then Some(fields[0].value.value)
    else FirstNumber(fields[1..], number)
  }

  /** The last text of a field, if every text of that field decodes. */
  function LastText(fields: seq<Field>, number: nat, decode: Bytes -> Option<string>): Option<string> {
    if fields == [] then Some("")
    else
      var last := fields[|fields| - 1];
      var before := LastText(fields[..|fields| - 1], number, decode);
      if before.None? then None else if IsText(last, number) then decode(last.value.bytes) else before
  }

  /** The low 32 bits as a signed number. */
  function ToInt32(v: UInt64): int {
    var low := v % UINT32_LIMIT;
    if low < 0x8000_0000 then low else low - UINT32_LIMIT
  }

  /** How protobuf puts a 32-bit signed number on the wire: extended to 64 bits. */
  function SignExtended(n: int): UInt64
    requires -0x8000_0000 <= n < 0x8000_0000
  {
    if n >= 0 then n else UINT64_LIMIT + n
  }

  lemma ErrorCodesSurvive(n: int)
    requires -0x8000_0000 <= n < 0x8000_0000
    ensures ToInt32(SignExtended(n)) == n
  {
    if n < 0 {
      assert UINT64_LIMIT + n == (UINT32_LIMIT - 1) * UINT32_LIMIT + (UINT32_LIMIT + n);
      LowBits(UINT32_LIMIT - 1, UINT32_LIMIT + n);
    }
  }

  lemma LowBits(q: nat, r: nat)
    requires r < UINT32_LIMIT
    ensures (q * UINT32_LIMIT + r) % UINT32_LIMIT == r
  {
  }

  // ------------------------------------------------------------------- parsers

  /** Steps over a value of the wire type. */
  method SkipField(data: Bytes, wireType: nat, index0: nat) returns (skipped: bool, index: nat)
    requires index0 <= |data|
    ensures index <= |data|
    ensures skipped == ValueAt(data, wireType, index0).Some?
    ensures skipped ==> index == ValueAt(data, wireType, index0).value.1
  {
    index := index0;
    if wireType == 0 {
      var value;
      value, index := ReadVarint(data, index);
      return value.Some?, index;
    }
    if wireType == 1 {
      if !(|data| - index >= 8) { return false, index; }
      return true, index + 8;
    }
    if wireType == 2 {
      var length;
      length, index := ReadVarint(data, index);
      if length.None? { return false, index; }
      if !(length.value <= INT64_MAX && |data| - index >= length.value) { return false, index; }
      return true, index + length.value;
    }
    if wireType == 5 {
      if !(|data| - index >= 4) { return false, index; }
      return true, index + 4;
    }
    return false, index;
  }

  /** Having read `done`, what is left decides. */
  ghost predicate ReadSoFar(data: Bytes, done: seq<Field>, index: nat) {
    index <= |data|
    && FieldsAt(data, 0)
       == if FieldsAt(data, index).None? then None else Some(done + FieldsAt(data, index).value)
  }

  lemma NothingRead(data: Bytes)
    ensures ReadSoFar(data, [], 0)
  {
    if FieldsAt(data, 0).Some? {
      assert [] + FieldsAt(data, 0).value == FieldsAt(data, 0).value;
    }
  }

  lemma ReadOneMore(data: Bytes, done: seq<Field>, index: nat)
    requires ReadSoFar(data, done, index) && index < |data|
    ensures FieldAt(data, index).None? ==> FieldsAt(data, 0).None?
    ensures FieldAt(data, index).Some? ==>
              ReadSoFar(data, done + [FieldAt(data, index).value.0], FieldAt(data, index).value.1)
  {
    var f := FieldAt(data, index);
    if f.Some? && FieldsAt(data, f.value.1).Some? {
      var rest := FieldsAt(data, f.value.1).value;
      assert done + ([f.value.0] + rest) == done + [f.value.0] + rest;
    }
  }

  lemma AllRead(data: Bytes, done: seq<Field>)
    requires ReadSoFar(data, done, |data|)
    ensures FieldsAt(data, 0) == Some(done)
  {
    assert done + [] == done;
  }

  /** A varint with its key, as the parsers read it. */
  lemma FieldByKey(data: Bytes, index: nat, key: UInt64, middle: nat)
    requires index <= |data| && VarintAt(data, index) == Some((key, middle))
    ensures FieldAt(data, index).Some? <==> ValueAt(data, key % 8, middle).Some?
    ensures FieldAt(data, index).Some? ==>
              FieldAt(data, index).value.0 == Field(key / 8, ValueAt(data, key % 8, middle).value.0)
              && FieldAt(data, index).value.1 == ValueAt(data, key % 8, middle).value.1
  {
  }

  lemma LastNumberSnoc(fields: seq<Field>, f: Field, number: nat)
    ensures LastNumber(fields + [f], number) == if IsNumber(f, number) then f.value.value else LastNumber(fields, number)
  {
    assert (fields + [f])[..|fields|] == fields;
  }

  /** One field of a transaction response: its height if it is one. */
  method NextHeight(data: Bytes, index0: nat, height0: UInt64, ghost done: seq<Field>)
    returns (ok: bool, index: nat, height: UInt64, ghost done': seq<Field>)
    requires ReadSoFar(data, done, index0) && index0 < |data| && height0 == LastNumber(done, 2)
    ensures ok ==> ReadSoFar(data, done', index) && index > index0 && height == LastNumber(done', 2)
    ensures !ok ==> FieldsAt(data, 0).None?
  {
    ReadOneMore(data, done, index0);
    height, done' := height0, done;
    var key;
    key, index := ReadVarint(data, index0);
    if key.None? { return false, index, height, done'; }
    FieldByKey(data, index0, key.value, index);
    if key.value / 8 == 2 && key.value % 8 == 0 {
      var value;
      value, index := ReadVarint(data, index);
      if value.None? { return false, index, height, done'; }
      height := value.value;
    } else {
      ok, index := SkipField(data, key.value % 8, index);
      if !ok { return false, index, height, done'; }
    }
    LastNumberSnoc(done, FieldAt(data, index0).value.0, 2);
    done' := done + [FieldAt(data, index0).value.0];
    return true, index, height, done';
  }

  /** The height a transaction response reports: its payload read as fields, the
      last value winning, unknown fields ignored. */
  method ParseTransactionResponse(data: Bytes) returns (r: Result<Observation, DecodeError>)
    ensures r == if Payload(data).Failure? || FieldsAt(Payload(data).value, 0).None? then Failure(MalformedResponse)
                 else Success(Observed(LastNumber(FieldsAt(Payload(data).value, 0).value, 2)))
  {
    var framed := GrpcPayload(data);
    if framed.Failure? { return Failure(framed.error); }
    var payload, index, height := framed.value, 0, 0;
    ghost var done: seq<Field> := [];
    NothingRead(payload);
    while index < |payload|
      invariant ReadSoFar(payload, done, index) && height == LastNumber(done, 2)
      decreases |payload| - index
    {
      var ok;
      ok, index, height, done := NextHeight(payload, index, height, done);
      if !ok { return Failure(MalformedResponse); }
    }
    AllRead(payload, done);
    return Success(Observed(height));
  }

  datatype SendResponse = SendResponse(code: int, message: string)

  /** What a send response says, if every message in it is text. */
  function Sent(fields: seq<Field>, decode: Bytes -> Option<string>): Result<SendResponse, DecodeError> {
    var message := LastText(fields, 2, decode);
    if message.None? then Failure(MalformedResponse)
    else Success(SendResponse(ToInt32(LastNumber(fields, 1)), message.value))
  }

  lemma {:induction false} TextStaysBad(fields: seq<Field>, more: seq<Field>, number: nat, decode: Bytes -> Option<string>)
    requires LastText(fields, number, decode).None?
    ensures LastText(fields + more, number, decode).None?
    decreases |more|
  {
    if more == [] {
      assert fields + more == fields;
    } else {
      TextStaysBad(fields, more[..|more| - 1], number, decode);
      assert (fields + more)[..|fields + more| - 1] == fields + more[..|more| - 1];
    }
  }

  lemma LastTextSnoc(fields: seq<Field>, f: Field, number: nat, decode: Bytes -> Option<string>)
    ensures LastText(fields + [f], number, decode)
            == if LastText(fields, number, decode).None? then None
               else if IsText(f, number) then decode(f.value.bytes) else LastText(fields, number, decode)
  {
    assert (fields + [f])[..|fields|] == fields;
  }

  /** What has been read of a send response. */
  ghost predicate SentSoFar(done: seq<Field>, code: Option<int>, message: string, decode: Bytes -> Option<string>) {
    && LastText(done, 2, decode) == Some(message)
    && ToInt32(LastNumber(done, 1)) == if code.Some? then code.value else 0
  }

  /** Either the payload is not a sequence of fields, or a message is not text. */
  ghost predicate Unsendable(data: Bytes, decode: Bytes -> Option<string>) {
    FieldsAt(data, 0).Some? ==> LastText(FieldsAt(data, 0).value, 2, decode).None?
  }

  /** One field of a send response. */
  method NextSendField(data: Bytes, decode: Bytes -> Option<string>, index0: nat, code0: Option<int>, message0: string,
                       ghost done: seq<Field>)
    returns (ok: bool, index: nat, code: Option<int>, message: string, ghost done': seq<Field>)
    requires ReadSoFar(data, done, index0) && index0 < |data| && SentSoFar(done, code0, message0, decode)
    ensures ok ==> ReadSoFar(data, done', index) && index > index0 && SentSoFar(done', code, message, decode)
    ensures !ok ==> Unsendable(data, decode)
  {
    ReadOneMore(data, done, index0);
    code, message, done' := code0, message0, done;
    var key;
    key, index := ReadVarint(data, index0);
    if key.None? { return false, index, code, message, done'; }
    FieldByKey(data, index0, key.value, index);
    var number, wireType := key.value / 8, key.value % 8;
    if number == 1 && wireType == 0 {
      var value;
      value, index := ReadVarint(data, index);
      if value.None? { return false, index, code, message, done'; }
      code := Some(ToInt32(value.value));
    } else if number == 2 && wireType == 2 {
      var text;
      text, index := ReadText(data, decode, index);
      if text.None? {
        if FieldAt(data, index0).Some? { BadTextSpoilsAll(data, decode, done, index0); }
        return false, index, code, message, done';
      }
      message := text.value;
    } else {
      ok, index := SkipField(data, wireType, index);
      if !ok { return false, index, code, message, done'; }
    }
    ghost var f := FieldAt(data, index0).value.0;
    SentOneMore(done, f, code0, message0, code, message, decode);
    done' := done + [f];
    return true, index, code, message, done';
  }

  /** A length-delimited text, in bounds and decodable. */
  method ReadText(data: Bytes, decode: Bytes -> Option<string>, index0: nat) returns (text: Option<string>, index: nat)
    requires index0 <= |data|
    ensures index <= |data|
    ensures text.Some? ==> ValueAt(data, 2, index0).Some? && index == ValueAt(data, 2, index0).value.1
                           && decode(ValueAt(data, 2, index0).value.0.bytes) == text
    ensures text.None? && ValueAt(data, 2, index0).Some? ==> decode(ValueAt(data, 2, index0).value.0.bytes).None?
  {
    var length;
    length, index := ReadVarint(data, index0);
    if length.None? || length.value > INT64_MAX || |data| - index < length.value { return None, index; }
    var end := index + length.value;
    var decoded := decode(data[index..end]);
    return decoded, end;
  }

  /** What one more field does to a send response. */
  predicate Updates(f: Field, code0: Option<int>, message0: string, code: Option<int>, message: string,
                    decode: Bytes -> Option<string>)
  {
    && code == (if IsNumber(f, 1) then Some(ToInt32(f.value.value)) else code0)
    && (if IsText(f, 2) then decode(f.value.bytes) == Some(message) else message == message0)
  }

  lemma SentOneMore(done: seq<Field>, f: Field, code0: Option<int>, message0: string, code: Option<int>,
                    message: string, decode: Bytes -> Option<string>)
    requires SentSoFar(done, code0, message0, decode) && Updates(f, code0, message0, code, message, decode)
    ensures SentSoFar(done + [f], code, message, decode)
  {
    LastNumberSnoc(done, f, 1);
    LastTextSnoc(done, f, 2, decode);
  }

  lemma BadTextSpoilsAll(data: Bytes, decode: Bytes -> Option<string>, done: seq<Field>, index: nat)
    requires ReadSoFar(data, done, index) && index < |data| && FieldAt(data, index).Some?
    requires IsText(FieldAt(data, index).value.0, 2) && decode(FieldAt(data, index).value.0.value.bytes).None?
    ensures Unsendable(data, decode)
  {
    ReadOneMore(data, done, index);
    var f, end := FieldAt(data, index).value.0, FieldAt(data, index).value.1;
    LastTextSnoc(done, f, 2, decode);
    if FieldsAt(data, end).Some? { TextStaysBad(done + [f], FieldsAt(data, end).value, 2, decode); }
  }

  /** The code and message of a send response: the last of each wins, an absent
      code is success, unknown fields are ignored. */
  method ParseSendTransactionResponse(data: Bytes, decode: Bytes -> Option<string>)
    returns (r: Result<SendResponse, DecodeError>)
    ensures r == if Payload(data).Failure? || FieldsAt(Payload(data).value, 0).None? then Failure(MalformedResponse)
                 else Sent(FieldsAt(Payload(data).value, 0).value, decode)
  {
    var framed := GrpcPayload(data);
    if framed.Failure? { return Failure(framed.error); }
    var payload, index := framed.value, 0;
    var errorCode: Option<int>, errorMessage: string := None, "";
    ghost var done: seq<Field> := [];
    NothingRead(payload);
    while index < |payload|
      invariant ReadSoFar(payload, done, index) && SentSoFar(done, errorCode, errorMessage, decode)
      decreases |payload| - index
    {
      var ok;
      ok, index, errorCode, errorMessage, done := NextSendField(payload, decode, index, errorCode, errorMessage, done);
      if !ok { return Failure(MalformedResponse); }
    }
    AllRead(payload, done);
    return Success(SendResponse(if errorCode.Some? then errorCode.value else 0, errorMessage));
  }

  /** The height of the latest block from `index` on: the first value of field
      1, whatever follows it. */
  function FirstHeight(data: Bytes, index: nat): Result<UInt64, DecodeError>
    requires index <= |data|
    decreases |data| - index
  {
    if index == |data| then Failure(MissingHeight)
    else
      var f := FieldAt(data, index);
      if f.None? then Failure(MalformedResponse)
      else if IsNumber(f.value.0, 1) then Success(f.value.0.value.value)
      else FirstHeight(data, f.value.1)
  }

  method ParseLatestBlockResponse(data: Bytes) returns (r: Result<UInt64, DecodeError>)
    ensures r == if Payload(data).Failure? || Payload(data).value == [] then Failure(MalformedResponse)
                 else FirstHeight(Payload(data).value, 0)
  {
    var framed := GrpcPayload(data);
    if framed.Failure? || framed.value == [] { return Failure(MalformedResponse); }
    var payload, index := framed.value, 0;
    while index < |payload|
      invariant index <= |payload| && FirstHeight(payload, 0) == FirstHeight(payload, index)
      decreases |payload| - index
    {
      ghost var before := index;
      var key;
      key, index := ReadVarint(payload, index);
      if key.None? { return Failure(MalformedResponse); }
      FieldByKey(payload, before, key.value, index);
      if key.value / 8 == 1 && key.value % 8 == 0 {
        var value;
        value, index := ReadVarint(payload, index);
        return if value.Some? then Success(value.value) else Failure(MalformedResponse);
      }
      var ok;
      ok, index := SkipField(payload, key.value % 8, index);
      if !ok { return Failure(MalformedResponse); }
    }
    return Failure(MissingHeight);
  }

  lemma FirstHeightStep(data: Bytes, index: nat, f: Field, end: nat)
    requires index < |data| && FieldAt(data, index) == Some((f, end))
    ensures FirstHeight(data, index) == if IsNumber(f, 1) then Success(f.value.value) else FirstHeight(data, end)
  {
  }

  lemma FieldsApart(fields: seq<Field>, rest: Bytes)
    requires AllWellFormed(fields) && fields != []
    ensures FieldsBytes(fields) + rest == FieldBytes(fields[0]) + (FieldsBytes(fields[1..]) + rest)
  {
    Regrouped(FieldBytes(fields[0]), FieldsBytes(fields[1..]), rest);
  }

  lemma FirstFieldAhead(data: Bytes, index: nat, f: Field, tail: Bytes)
    requires WellFormed(f) && index <= |data| && data[index..] == FieldBytes(f) + tail
    ensures var end := index + |FieldBytes(f)|;
            && index < end <= |data| && FieldAt(data, index) == Some((f, end)) && data[end..] == tail
  {
    HeldAhead(data, index, FieldBytes(f), tail);
    FieldReadsBack(data, index, f);
  }

  /** On a payload that starts with well-formed fields, the first height among
      them is found whatever bytes follow. */
  lemma {:induction false} FirstHeightOfFields(data: Bytes, index: nat, fields: seq<Field>, rest: Bytes)
    requires AllWellFormed(fields) && index <= |data| && data[index..] == FieldsBytes(fields) + rest
    ensures FirstNumber(fields, 1).Some? ==> FirstHeight(data, index) == Success(FirstNumber(fields, 1).value)
    ensures FirstNumber(fields, 1).None? && rest == [] ==> FirstHeight(data, index) == Failure(MissingHeight)
    decreases |fields|
  {
    if fields == [] {
      assert rest == [] ==> index == |data|;
    } else {
      FieldsApart(fields, rest);
      FirstFieldAhead(data, index, fields[0], FieldsBytes(fields[1..]) + rest);
      var end := FieldAt(data, index).value.1;
      FirstHeightStep(data, index, fields[0], end);
      FirstHeightOfFields(data, end, fields[1..], rest);
    }
  }

  lemma Regrouped(a: Bytes, b: Bytes, c: Bytes)
    ensures a + b + c == a + (b + c)
  {
  }

  /** A response made of any well-formed fields parses to the fold over them. */
  lemma ResponsesOfFields(fields: seq<Field>, rest: Bytes)
    requires AllWellFormed(fields) && |FieldsBytes(fields)| < UINT32_LIMIT
    ensures var data := Frame(FieldsBytes(fields)) + rest;
            Payload(data) == Success(FieldsBytes(fields)) && FieldsAt(Payload(data).value, 0) == Some(fields)
  {
    FrameRoundTrip(FieldsBytes(fields), rest);
    assert FieldsBytes(fields)[0..] == FieldsBytes(fields);
    FieldsReadBack(FieldsBytes(fields), 0, fields);
  }
}
