/** The protobuf and gRPC wire format of the native lightwalletd client:
    varints of the Protocol Buffers Encoding guide, section "Base 128 Varints",
    and the length-prefixed message of gRPC over HTTP2. */
module WireCodec {
  import opened Base

  const INT64_MAX := 0x7FFF_FFFF_FFFF_FFFF
  const UINT32_LIMIT := 0x1_0000_0000
  const MAX_VARINT_BYTES := 10

  datatype DecodeError = MalformedResponse | MissingHeight

  // ------------------------------------------------------------------ varints

  /** Seven bits a byte, least significant first, the high bit for "more". */
  function Varint(v: UInt64): (r: Bytes)
    ensures r != []
  {
    if v < 128 then [v] else [v % 128 + 128] + Varint(v / 128)
  }

  function Weight(n: nat): (w: nat)
    ensures w >= 1
  {
    if n == 0 then 1 else 128 * Weight(n - 1)
  }

  /** The number the low seven bits of each byte spell. */
  function Spelled(bytes: Bytes): nat {
    if bytes == [] then 0 else bytes[0] % 128 + 128 * Spelled(bytes[1..])
  }

  /** Past the first byte without the high bit, among at most `left`. */
  function VarintEnd(data: Bytes, index: nat, left: nat): (r: Option<nat>)
    requires index <= |data|
    ensures r.Some? ==> index < r.value <= |data| && r.value <= index + left
    decreases left
  {
    if left == 0 || index == |data| then None
    else if data[index] < 128 then Some(index + 1)
    else VarintEnd(data, index + 1, left - 1)
  }

  /** The varint at `index` and where it ends; its bits past the 64th are lost. */
  function VarintAt(data: Bytes, index: nat): (r: Option<(UInt64, nat)>)
    requires index <= |data|
    ensures r.Some? ==> index < r.value.1 <= |data|
  {
    var end := VarintEnd(data, index, MAX_VARINT_BYTES);
    if end.None? then None else Some((Spelled(data[index..end.value]) % UINT64_LIMIT, end.value))
  }

  method EncodeVarint(value: UInt64) returns (encoded: Bytes)
    ensures encoded == Varint(value)
  {
    var v := value;
    encoded := [];
    while true
      invariant encoded + Varint(v) == Varint(value)
      decreases v
    {
      var byte: Byte := v % 128;
      var rest := v / 128;
      if rest != 0 { byte := byte + 128; }
      assert Varint(v) == [byte] + if rest != 0 then Varint(rest) else [];
      assert encoded + ([byte] + if rest != 0 then Varint(rest) else [])
             == encoded + [byte] + if rest != 0 then Varint(rest) else [];
      encoded := encoded + [byte];
      if rest == 0 { break; }
      v := rest;
    }
  }

  lemma {:induction false} SpelledSnoc(bytes: Bytes, b: Byte)
    ensures Spelled(bytes + [b]) == Spelled(bytes) + (b % 128) * Weight(|bytes|)
  {
    if bytes == [] {
    } else {
      SpelledSnoc(bytes[1..], b);
      assert (bytes + [b])[1..] == bytes[1..] + [b];
      var w := Weight(|bytes| - 1);
      assert 128 * ((b % 128) * w) == (b % 128) * (128 * w);
    }
  }

  lemma {:induction false} SpelledBound(bytes: Bytes)
    ensures Spelled(bytes) < Weight(|bytes|)
  {
    if bytes != [] {
      SpelledBound(bytes[1..]);
    }
  }

  lemma WeightOfNine()
    ensures Weight(9) == 0x8000_0000_0000_0000
  {
    assert Weight(3) == 0x20_0000;
    assert Weight(6) == 0x400_0000_0000;
  }

  lemma {:induction false} WeightMonotone(m: nat, n: nat)
    requires m <= n
    ensures Weight(m) <= Weight(n)
    decreases n
  {
    if m < n {
      WeightMonotone(m, n - 1);
    }
  }

  /** The bits of `b` in the `n`-th place of a 64-bit word. */
  function Placed(b: Byte, n: nat): UInt64 { (b % 128) * Weight(n) % UINT64_LIMIT }

  lemma Small(x: nat, limit: nat)
    requires x < limit
    ensures x % limit == x
  {
  }

  lemma PlacedLow(b: Byte, n: nat)
    requires (b % 128) * Weight(n) < UINT64_LIMIT
    ensures Placed(b, n) == (b % 128) * Weight(n)
  {
    Small((b % 128) * Weight(n), UINT64_LIMIT);
  }

  lemma SpelledLow(bytes: Bytes)
    requires |bytes| <= 9
    ensures Spelled(bytes) < UINT64_LIMIT
  {
    WeightOfNine();
    WeightMonotone(|bytes|, 9);
    SpelledBound(bytes);
  }

  lemma ShiftedLow(bytes: Bytes, b: Byte)
    requires |bytes| < 9
    ensures Spelled(bytes) + Placed(b, |bytes|) == Spelled(bytes + [b]) < UINT64_LIMIT
  {
    SpelledLow(bytes + [b]);
    SpelledSnoc(bytes, b);
    PlacedLow(b, |bytes|);
  }

  lemma ShiftedTop(bytes: Bytes, b: Byte)
    requires |bytes| == 9
    ensures Spelled(bytes) + Placed(b, 9) < UINT64_LIMIT
    ensures Spelled(bytes) + Placed(b, 9) == Spelled(bytes + [b]) % UINT64_LIMIT
  {
    hide Spelled;
    WeightOfNine();
    SpelledBound(bytes);
    SpelledSnoc(bytes, b);
    TopBit(Spelled(bytes), b % 128);
  }

  /** Shifting a byte into place drops what lies past the 64th bit. */
  lemma ShiftedIn(bytes: Bytes, b: Byte)
    requires |bytes| < MAX_VARINT_BYTES
    ensures Spelled(bytes) + Placed(b, |bytes|) < UINT64_LIMIT
    ensures Spelled(bytes) + Placed(b, |bytes|) == Spelled(bytes + [b]) % UINT64_LIMIT
    ensures |bytes| < 9 ==> Spelled(bytes) + Placed(b, |bytes|) == Spelled(bytes + [b])
  {
    if |bytes| < 9 {
      ShiftedLow(bytes, b);
      Small(Spelled(bytes + [b]), UINT64_LIMIT);
    } else {
      ShiftedTop(bytes, b);
    }
  }

  lemma TopBit(low: nat, x: nat)
    requires low < 0x8000_0000_0000_0000 && x < 128
    ensures low + x * 0x8000_0000_0000_0000 % UINT64_LIMIT == (low + x * 0x8000_0000_0000_0000) % UINT64_LIMIT
    ensures low + x * 0x8000_0000_0000_0000 % UINT64_LIMIT < UINT64_LIMIT
  {
    var q, r := x / 2, x % 2;
    assert x * 0x8000_0000_0000_0000 == q * UINT64_LIMIT + r * 0x8000_0000_0000_0000;
    Remainder(r * 0x8000_0000_0000_0000, q);
    Remainder(low + r * 0x8000_0000_0000_0000, q);
  }

  lemma Remainder(r: nat, q: nat)
    requires r < UINT64_LIMIT
    ensures (q * UINT64_LIMIT + r) % UINT64_LIMIT == r
  {
  }

  lemma OneMoreByte(data: Bytes, index0: nat, index: nat, shift: nat)
    requires index0 <= index < |data| && index - index0 < MAX_VARINT_BYTES && shift == 7 * (index - index0)
    ensures shift / 7 == index - index0
    ensures var low := Spelled(data[index0..index]);
            var next := Spelled(data[index0..index + 1]);
            && low + Placed(data[index], shift / 7) < UINT64_LIMIT
            && low + Placed(data[index], shift / 7) == next % UINT64_LIMIT
            && (index - index0 < 9 ==> low + Placed(data[index], shift / 7) == next)
  {
    var read := data[index0..index];
    assert shift / 7 == |read|;
    ShiftedIn(read, data[index]);
    assert data[index0..index + 1] == read + [data[index]];
  }

  method ReadVarint(data: Bytes, index0: nat) returns (r: Option<UInt64>, index: nat)
    requires index0 <= |data|
    ensures index <= |data|
    ensures VarintAt(data, index0) == if r.Some? then Some((r.value, index)) else None
  {
    index := index0;
    var value: UInt64 := 0;
    var shift := 0;
    while index < |data| && shift < 64
      invariant index0 <= index <= |data| && shift == 7 * (index - index0) && index - index0 <= MAX_VARINT_BYTES
      invariant VarintEnd(data, index0, MAX_VARINT_BYTES) == VarintEnd(data, index, MAX_VARINT_BYTES - (index - index0))
      invariant shift < 64 ==> value == Spelled(data[index0..index])
    {
      var byte := data[index];
      OneMoreByte(data, index0, index, shift);
      index := index + 1;
      value := value + Placed(byte, shift / 7);
      if byte < 128 { return Some(value), index; }
      shift := shift + 7;
    }
    return None, index;
  }

  /** Reading fails exactly when no byte within reach ends the varint. */
  lemma {:induction false} UnreadableVarint(data: Bytes, index: nat, left: nat)
    requires index <= |data|
    ensures VarintEnd(data, index, left).None? <==> forall i :: index <= i < |data| && i < index + left ==> data[i] >= 128
    decreases left
  {
    if left > 0 && index < |data| && data[index] >= 128 {
      UnreadableVarint(data, index + 1, left - 1);
    }
  }

  lemma {:induction false} VarintSpells(v: UInt64)
    ensures Spelled(Varint(v)) == v
  {
    if v >= 128 {
      VarintSpells(v / 128);
      assert Varint(v)[1..] == Varint(v / 128);
    }
  }

  lemma {:induction false} VarintLength(v: UInt64, n: nat)
    requires n > 0 && v < Weight(n)
    ensures |Varint(v)| <= n
    decreases n
  {
    if v >= 128 {
      assert n > 1;
      assert v < 128 * Weight(n - 1);
      VarintLength(v / 128, n - 1);
    }
  }

  predicate Holds(data: Bytes, index: nat, bytes: Bytes) {
    index + |bytes| <= |data| && data[index..index + |bytes|] == bytes
  }

  lemma HoldsBoth(data: Bytes, index: nat, a: Bytes, b: Bytes)
    requires Holds(data, index, a + b)
    ensures Holds(data, index, a) && Holds(data, index + |a|, b)
  {
    assert data[index..index + |a|] == (a + b)[..|a|];
    assert data[index + |a|..index + |a| + |b|] == (a + b)[|a|..];
  }

  lemma {:induction false} VarintEndsThere(data: Bytes, index: nat, v: UInt64, left: nat)
    requires Holds(data, index, Varint(v)) && |Varint(v)| <= left
    ensures VarintEnd(data, index, left) == Some(index + |Varint(v)|)
    decreases left
  {
    assert data[index] == Varint(v)[0];
    if v >= 128 {
      HoldsBoth(data, index, [v % 128 + 128], Varint(v / 128));
      VarintEndsThere(data, index + 1, v / 128, left - 1);
    }
  }

  /** Reading inverts encoding for every 64-bit value, whatever surrounds it. */
  lemma VarintReadsBack(data: Bytes, index: nat, v: UInt64)
    requires Holds(data, index, Varint(v))
    ensures VarintAt(data, index) == Some((v, index + |Varint(v)|))
  {
    hide Spelled;
    WeightOfNine();
    assert Weight(10) == 128 * Weight(9);
    VarintLength(v, MAX_VARINT_BYTES);
    VarintEndsThere(data, index, v, MAX_VARINT_BYTES);
    VarintSpells(v);
  }

  lemma VarintRoundTrip(v: UInt64, rest: Bytes)
    ensures VarintAt(Varint(v) + rest, 0) == Some((v, |Varint(v)|))
  {
    assert (Varint(v) + rest)[0..0 + |Varint(v)|] == Varint(v);
    VarintReadsBack(Varint(v) + rest, 0, v);
  }
}
