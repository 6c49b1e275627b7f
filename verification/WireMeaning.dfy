/** The wire format byte by byte, and what the fields of a response stand for. */
module WireMeaning {
  import opened Base
  import opened WireCodec
  import opened WireMessages

  /** The number four bytes spell, most significant first. */
  function Spells(a: int, b: int, c: int, d: int): int { a * 0x100_0000 + b * 0x1_0000 + c * 0x100 + d }

  lemma DigitsSpell(n: nat)
    requires n < 0x1_0000_0000
    ensures Spells(n / 0x100_0000, n / 0x1_0000 % 256, n / 256 % 256, n % 256) == n
  {
    assert n / 0x1_0000 == n / 256 / 256 && n / 0x100_0000 == n / 256 / 256 / 256;
    assert n == n / 256 * 256 + n % 256;
    assert n / 256 == n / 256 / 256 * 256 + n / 256 % 256;
    assert n / 256 / 256 == n / 256 / 256 / 256 * 256 + n / 256 / 256 % 256;
  }

  /** A frame: the byte 0, the length of the payload most significant byte
      first, the payload. */
  lemma FrameIs(payload: Bytes)
    requires |payload| < 0x1_0000_0000
    ensures var f := Frame(payload);
            |f| == 5 + |payload| && f[0] == 0 && f[5..] == payload && Spells(f[1], f[2], f[3], f[4]) == |payload|
  {
    DigitsSpell(|payload|);
  }

  /** A payload is cut out of the bytes exactly if they start uncompressed and
      are as long as the length in them says. */
  lemma PayloadIs(data: Bytes)
    ensures |data| < 5 ==> Payload(data) == Failure(MalformedResponse)
    ensures |data| >= 5 ==>
              var length := Spells(data[1], data[2], data[3], data[4]);
              Payload(data) == if data[0] == 0 && 5 + length <= |data| then Success(data[5..5 + length])
                               else Failure(MalformedResponse)
  {
    if |data| >= 5 {
      FourBytes(data[1..5]);
    }
  }

  lemma FourBytes(bytes: Bytes)
    requires |bytes| == 4
    ensures FromBigEndian(bytes) == Spells(bytes[0], bytes[1], bytes[2], bytes[3])
  {
    assert bytes[..3][..2] == bytes[..2] && bytes[..2][..1] == bytes[..1] && bytes[..1][..0] == [];
    var b0: int, b1: int, b2: int := bytes[0], bytes[1], bytes[2];
    assert FromBigEndian(bytes[..1]) == b0;
    assert FromBigEndian(bytes[..2]) == 256 * b0 + b1;
    assert FromBigEndian(bytes[..3]) == 256 * (256 * b0 + b1) + b2;
  }

  /** Every field that protobuf can express is well formed. */
  lemma WellFormedIs(f: Field)
    ensures WellFormed(f) <==>
              && f.number <= 0x1FFF_FFFF_FFFF_FFFF
              && (f.value.Fixed64? ==> |f.value.bits| == 8) && (f.value.Fixed32? ==> |f.value.bits| == 4)
              && (f.value.Delimited? ==> |f.value.bytes| <= 0x7FFF_FFFF_FFFF_FFFF)
  {
  }

  /** Every byte of a varint but the last has its high bit set; the number 300
      is the two bytes AC 02. */
  lemma {:induction false} VarintIs(v: UInt64, i: nat)
    requires i < |Varint(v)|
    ensures Varint(v)[i] >= 128 <==> i < |Varint(v)| - 1
    ensures Varint(300) == [0xAC, 0x02]
  {
    if v >= 128 && i > 0 { VarintIs(v / 128, i - 1); }
    assert Varint(300 / 128) == [2];
  }

  /** The value 0 is the mempool, the greatest a fork, any other a height. */
  lemma ObservedIs(height: UInt64)
    ensures Observed(height) == if height == 0 then Mempool
                                else if height == 0xFFFF_FFFF_FFFF_FFFF then Forked else Mined(height)
  {
  }

  /** The signed number that agrees with the value in its low 32 bits. */
  lemma ToInt32Is(v: UInt64)
    ensures -0x8000_0000 <= ToInt32(v) < 0x8000_0000 && (v - ToInt32(v)) % 0x1_0000_0000 == 0
  {
  }

  /** The value of a number field is that of its last occurrence, or 0. */
  lemma {:induction false} LastNumberIs(fields: seq<Field>, number: nat)
    ensures || (LastNumber(fields, number) == 0
                && forall i :: 0 <= i < |fields| ==> !(fields[i].number == number && fields[i].value.Number?))
            || exists i :: 0 <= i < |fields| && fields[i] == Field(number, Number(LastNumber(fields, number)))
                           && forall j :: i < j < |fields| ==> !(fields[j].number == number && fields[j].value.Number?)
  {
    if fields != [] {
      var last := |fields| - 1;
      LastNumberIs(fields[..last], number);
      if fields[last].number == number && fields[last].value.Number? {
        assert fields[last] == Field(number, Number(LastNumber(fields, number)));
      } else if i :| 0 <= i < last && fields[..last][i] == Field(number, Number(LastNumber(fields[..last], number)))
                     && forall j :: i < j < last ==>
                          !(fields[..last][j].number == number && fields[..last][j].value.Number?) {
        forall j | i < j < |fields| ensures !(fields[j].number == number && fields[j].value.Number?) {
          if j < last { assert fields[..last][j] == fields[j]; }
        }
        assert fields[i] == Field(number, Number(LastNumber(fields, number)));
      }
    }
  }

  lemma {:induction false} FirstNumberIs(fields: seq<Field>, number: nat)
    ensures match FirstNumber(fields, number)
            case None => forall i :: 0 <= i < |fields| ==> !(fields[i].number == number && fields[i].value.Number?)
            case Some(v) =>
              exists i :: 0 <= i < |fields| && fields[i] == Field(number, Number(v))
                          && forall j :: 0 <= j < i ==> !(fields[j].number == number && fields[j].value.Number?)
  {
    if fields != [] {
      FirstNumberIs(fields[1..], number);
      if !(fields[0].number == number && fields[0].value.Number?) && FirstNumber(fields, number).Some? {
        var v := FirstNumber(fields, number).value;
        var i :| 0 <= i < |fields[1..]| && fields[1..][i] == Field(number, Number(v))
                 && forall j :: 0 <= j < i ==> !(fields[1..][j].number == number && fields[1..][j].value.Number?);
        forall j | 0 <= j < i + 1 ensures !(fields[j].number == number && fields[j].value.Number?) {
          if j > 0 { assert fields[1..][j - 1] == fields[j]; }
        }
        assert fields[i + 1] == Field(number, Number(v));
      }
    }
  }

  /** The text of a field is that of its last occurrence, or empty, unless some
      occurrence is no text. */
  lemma {:induction false} LastTextIs(fields: seq<Field>, number: nat, decode: Bytes -> Option<string>)
    ensures LastText(fields, number, decode).None? <==>
              exists i :: 0 <= i < |fields| && fields[i].number == number && fields[i].value.Delimited?
                          && decode(fields[i].value.bytes) == None
    ensures var text := LastText(fields, number, decode);
            text.Some? ==>
              || (text.value == ""
                  && forall i :: 0 <= i < |fields| ==> !(fields[i].number == number && fields[i].value.Delimited?))
              || exists i :: 0 <= i < |fields| && fields[i].number == number && fields[i].value.Delimited?
                             && decode(fields[i].value.bytes) == text
                             && forall j :: i < j < |fields| ==>
                                  !(fields[j].number == number && fields[j].value.Delimited?)
  {
    if fields != [] {
      var last := |fields| - 1;
      var init := fields[..last];
      LastTextIs(init, number, decode);
      assert forall i :: 0 <= i < last ==> init[i] == fields[i];
    }
  }
}
