/**
 * The byte-buffer builder the song exporter writes a Standard MIDI File
 * with: raw numbers are appended to a growing list and turned into octets
 * (modulo 256) only when the buffer is read out.
 *
 * The JavaScript bit operators are written out with Euclidean division:
 * for every integer v, `(v >> k) & 0xFF` is `(v / 2^k) % 256`, because the
 * 32-bit conversion keeps the bits that the mask selects.
 */
module MidiWriting {
  import opened SongTypes
  import opened Arithmetic

  type Byte = b: int | 0 <= b < 256

  /** The largest value (exclusive) whose variable-length quantity fits the encoder's 32-bit buffer. */
  const VARINT_LIMIT: int := 0x1000_0000

  /** `charCodeAt` of each character, in order. */
  function CharCodes(s: string): seq<int>
  {
    seq(|s|, i requires 0 <= i < |s| => s[i] as int)
  }

  /** The octets a `Uint8Array` built from raw numbers holds: each one modulo 256. */
  function Octets(xs: seq<int>): seq<Byte>
  {
    seq(|xs|, i requires 0 <= i < |xs| => xs[i] % 256)
  }

  /** The value of octets read most significant first. */
  function BigEndianValue(bs: seq<int>): int
  {
    if |bs| == 0 then 0 else BigEndianValue(bs[..|bs| - 1]) * 256 + bs[|bs| - 1]
  }

  /** The low two bytes of v, most significant first. */
  function Uint16Bytes(v: int): seq<Byte>
  {
    [(v / 0x100) % 256, v % 256]
  }

  /** The low four bytes of v, most significant first. */
  function Uint32Bytes(v: int): seq<Byte>
  {
    [(v / 0x100_0000) % 256, (v / 0x1_0000) % 256, (v / 0x100) % 256, v % 256]
  }

  /** Removing the byte above a modulus: v mod (256·m) splits into the byte at m and v mod m. */
  lemma LowBytes(v: int, m: int)
    requires m > 0
    ensures v % (m * 256) == ((v / m) % 256) * m + v % m
  {
    var q, r := v / m, v % m;
    var a, b := q / 256, q % 256;
    assert v == q * m + r;
    assert q * m == a * (m * 256) + b * m by {
      assert q == a * 256 + b;
    }
    assert b * m + r < m * 256 by {
      MulLeq(b, 255, m);
    }
    DivModUnique(v, m * 256, a, b * m + r);
  }

  /** Reading the two written bytes back gives the value modulo 2^16. */
  lemma Uint16RoundTrip(v: int)
    ensures BigEndianValue(Uint16Bytes(v)) == v % 0x1_0000
    ensures 0 <= v < 0x1_0000 ==> BigEndianValue(Uint16Bytes(v)) == v
  {
    var bs: seq<int> := Uint16Bytes(v);
    assert bs[..1] == [bs[0]] && [bs[0]][..0] == [];
    assert BigEndianValue([bs[0]]) == bs[0];
    assert BigEndianValue(bs) == bs[0] * 256 + bs[1];
    LowBytes(v, 0x100);
  }

  /** Reading the four written bytes back gives the value modulo 2^32. */
  lemma Uint32RoundTrip(v: int)
    ensures BigEndianValue(Uint32Bytes(v)) == v % 0x1_0000_0000
    ensures 0 <= v < 0x1_0000_0000 ==> BigEndianValue(Uint32Bytes(v)) == v
  {
    var bs: seq<int> := Uint32Bytes(v);
    assert bs[..3] == [bs[0], bs[1], bs[2]];
    assert [bs[0], bs[1], bs[2]][..2] == [bs[0], bs[1]];
    assert [bs[0], bs[1]][..1] == [bs[0]] && [bs[0]][..0] == [];
    assert BigEndianValue([bs[0]]) == bs[0];
    assert BigEndianValue([bs[0], bs[1]]) == bs[0] * 256 + bs[1];
    assert BigEndianValue([bs[0], bs[1], bs[2]]) == (bs[0] * 256 + bs[1]) * 256 + bs[2];
    assert BigEndianValue(bs) == ((bs[0] * 256 + bs[1]) * 256 + bs[2]) * 256 + bs[3];
    LowBytes(v, 0x100);
    LowBytes(v, 0x1_0000);
    LowBytes(v, 0x100_0000);
  }

  // ---------------------------------------------------------------- variable-length quantities

  /** The bytes before the last 7-bit group of a quantity whose higher groups form x: most significant first, bit 7 set. */
  function Continuation(x: nat): seq<Byte>
  {
    if x == 0 then [] else Continuation(x / 128) + [x % 128 + 128]
  }

  lemma {:induction false} ContinuationBytes(x: nat)
    ensures forall i :: 0 <= i < |Continuation(x)| ==> Continuation(x)[i] >= 128
    ensures x == 0 <==> |Continuation(x)| == 0
  {
    if x != 0 {
      ContinuationBytes(x / 128);
    }
  }

  /**
   * The variable-length quantity of Standard MIDI Files 1.0 ("Conventions",
   * variable-length quantities): 7-bit groups, most significant first, bit 7
   * set on every byte but the last.
   */
  function VarInt(v: nat): (r: seq<Byte>)
    ensures |r| >= 1
  {
    Continuation(v / 128) + [v % 128]
  }

  /** Bit 7 is set on every byte but the last, and a single byte suffices exactly below 128. */
  lemma VarIntShape(v: nat)
    ensures var r := VarInt(v);
            && r[|r| - 1] < 128
            && (forall i :: 0 <= i < |r| - 1 ==> r[i] >= 128)
            && (v < 128 <==> |r| == 1)
  {
    ContinuationBytes(v / 128);
  }

  function Pow128(k: nat): (p: nat)
    ensures p >= 1
  {
    if k == 0 then 1 else 128 * Pow128(k - 1)
  }

  lemma {:induction false} ContinuationLength(x: nat, k: nat)
    requires x < Pow128(k)
    ensures |Continuation(x)| <= k
  {
    if x != 0 {
      assert k != 0;
      assert x / 128 < Pow128(k - 1) by {
        DivModUnique(x, 128, x / 128, x % 128);
      }
      ContinuationLength(x / 128, k - 1);
    }
  }

  /** Every value below 2^28 takes one to four bytes. */
  lemma VarIntLength(v: nat)
    requires v < VARINT_LIMIT
    ensures 1 <= |VarInt(v)| <= 4
  {
    assert Pow128(3) == 0x20_0000;
    ContinuationLength(v / 128, 3);
  }

  /** Reads a quantity from the front of bs, on top of the groups already read into acc: its value and its length in bytes. */
  function DecodeFrom(bs: seq<Byte>, acc: nat): (r: Option<(nat, nat)>)
    ensures r.Some? ==> 1 <= r.value.1 <= |bs|
  {
    if |bs| == 0 then None
    else if bs[0] < 128 then Some((acc * 128 + bs[0], 1))
    else
      match DecodeFrom(bs[1..], acc * 128 + (bs[0] - 128))
      case None => None
      case Some((value, n)) => Some((value, n + 1))
  }

  /** Reads a variable-length quantity from the front of bs; None when no byte with bit 7 clear ends it. */
  function DecodeVarInt(bs: seq<Byte>): Option<(nat, nat)>
  {
    DecodeFrom(bs, 0)
  }

  function Advance(r: Option<(nat, nat)>, n: nat): Option<(nat, nat)>
  {
    match r
    case None => None
    case Some((value, m)) => Some((value, m + n))
  }

  /** Reading the continuation bytes of x from scratch leaves x accumulated for the bytes that follow. */
  lemma {:induction false} ContinuationDecodes(x: nat, tail: seq<Byte>)
    ensures DecodeFrom(Continuation(x) + tail, 0) == Advance(DecodeFrom(tail, x), |Continuation(x)|)
  {
    if x != 0 {
      var t := [x % 128 + 128] + tail;
      assert Continuation(x) + tail == Continuation(x / 128) + t;
      ContinuationDecodes(x / 128, t);
      assert t[1..] == tail;
      assert (x / 128) * 128 + (x % 128) == x;
      var r := DecodeFrom(tail, x);
      assert DecodeFrom(t, x / 128) == Advance(r, 1);
      calc {
        DecodeFrom(Continuation(x) + tail, 0);
        DecodeFrom(Continuation(x / 128) + t, 0);
        Advance(DecodeFrom(t, x / 128), |Continuation(x / 128)|);
        Advance(Advance(r, 1), |Continuation(x / 128)|);
        Advance(r, |Continuation(x)|);
      }
    } else {
      assert Continuation(x) + tail == tail;
      match DecodeFrom(tail, x)
      case None =>
      case Some(_) =>
    }
  }

  /** Decoding an encoded quantity, whatever follows it, gives back the value and the encoded length. */
  lemma VarIntRoundTrip(v: nat, rest: seq<Byte>)
    ensures DecodeVarInt(VarInt(v) + rest) == Some((v, |VarInt(v)|))
  {
    var t := [v % 128] + rest;
    assert VarInt(v) + rest == Continuation(v / 128) + t;
    ContinuationDecodes(v / 128, t);
    LastGroupDecodes(v, rest);
  }

  lemma LastGroupDecodes(v: nat, rest: seq<Byte>)
    ensures DecodeFrom([v % 128] + rest, v / 128) == Some((v, 1))
  {
    assert (v / 128) * 128 + v % 128 == v;
  }

  /** The bytes the second loop of `writeVarInt` emits from its buffer: low byte first, continuing while bit 7 is set. */
  function Emitted(buffer: nat): (r: seq<Byte>)
    ensures |r| >= 1
  {
    var low := buffer % 256;
    if (low / 128) % 2 == 1 then [low] + Emitted(buffer / 256) else [low]
  }

  /** The octets of a byte sequence are the sequence itself. */
  lemma OctetsOfBytes(bs: seq<Byte>)
    ensures Octets(bs) == bs
  {
  }

  /** Reading the buffer out distributes over appends. */
  lemma OctetsAppend(xs: seq<int>, ys: seq<int>)
    ensures Octets(xs + ys) == Octets(xs) + Octets(ys)
  {
  }

  class MidiWriter {
    /** The raw numbers written so far. */
    var bytes: seq<int>

    constructor ()
      ensures bytes == []
    {
      bytes := [];
    }

    /** Appends the character code of every character. */
    method WriteString(str: string)
      modifies this
      ensures bytes == old(bytes) + CharCodes(str)
    {
      var i := 0;
      while i < |str|
        invariant 0 <= i <= |str|
        invariant bytes == old(bytes) + CharCodes(str)[..i]
      {
        bytes := bytes + [str[i] as int];
        i := i + 1;
      }
    }

    method WriteUint8(value: int)
      modifies this
      ensures bytes == old(bytes) + [value % 256]
    {
      bytes := bytes + [value % 256];
    }

    method WriteUint16(value: int)
      modifies this
      ensures bytes == old(bytes) + Uint16Bytes(value)
    {
      bytes := bytes + [(value / 0x100) % 256];
      bytes := bytes + [value % 256];
    }

    method WriteUint32(value: int)
      modifies this
      ensures bytes == old(bytes) + Uint32Bytes(value)
    {
      bytes := bytes + [(value / 0x100_0000) % 256];
      bytes := bytes + [(value / 0x1_0000) % 256];
      bytes := bytes + [(value / 0x100) % 256];
      bytes := bytes + [value % 256];
    }

    /**
     * Packs the 7-bit groups into a buffer (`PackGroups`), then emits the
     * buffer's bytes from the low end while bit 7 is set.
     */
    method WriteVarInt(value: int)
      requires 0 <= value < VARINT_LIMIT
      modifies this
      ensures bytes == old(bytes) + VarInt(value)
    {
      var buffer: nat := PackGroups(value);
      while true
        invariant bytes + Emitted(buffer) == old(bytes) + VarInt(value)
        decreases buffer
      {
        var low := buffer % 256;
        EmitOne(bytes, buffer);
        bytes := bytes + [low];
        if (low / 128) % 2 != 1 {
          break;
        }
        buffer := buffer / 256;
      }
    }

    method WriteBytes(bs: seq<int>)
      modifies this
      ensures bytes == old(bytes) + bs
    {
      bytes := bytes + bs;
    }

    /** The buffer as octets. */
    method GetBytes() returns (r: seq<Byte>)
      ensures |r| == |bytes|
      ensures forall i :: 0 <= i < |r| ==> r[i] == bytes[i] % 256
    {
      r := Octets(bytes);
    }
  }

  /**
   * The first loop of `writeVarInt`: the lowest 7-bit group goes into the
   * buffer's highest byte, each higher group below it with bit 7 set. Below
   * 2^28 the buffer never needs more than 31 bits, so the 32-bit shifts of
   * the original lose nothing.
   */
  method PackGroups(value: int) returns (buffer: nat)
    requires 0 <= value < VARINT_LIMIT
    ensures buffer < 0x8000_0000
    ensures Emitted(buffer) == VarInt(value)
  {
    var rest: nat := value / 128;
    buffer := value % 128;
    ghost var groups: nat := 0;
    PackStart(value);
    while rest != 0
      invariant Packed(VarInt(value), rest, buffer, groups)
      decreases rest
    {
      PackStep(VarInt(value), rest, buffer, groups);
      buffer := buffer * 256 + (rest % 128 + 128);
      rest := rest / 128;
      groups := groups + 1;
    }
    PackedFits(VarInt(value), buffer, groups);
  }

  function Pow256(k: nat): (p: nat)
    ensures p >= 1
  {
    if k == 0 then 1 else 256 * Pow256(k - 1)
  }

  lemma {:induction false} Pow256Monotone(j: nat, k: nat)
    requires j <= k
    ensures Pow256(j) <= Pow256(k)
  {
    if j < k {
      Pow256Monotone(j, k - 1);
    }
  }

  /**
   * The invariant of the packing loop of `writeVarInt`: the groups still to
   * pack, followed by what the buffer will emit, make up the quantity, and
   * the buffer holds one more 7-bit group than it has packed bytes.
   */
  ghost predicate Packed(target: seq<Byte>, rest: nat, buffer: nat, groups: nat)
  {
    && Continuation(rest) + Emitted(buffer) == target
    && groups <= 3 && buffer < 128 * Pow256(groups)
    && rest < Pow128(3 - groups)
  }

  lemma PackStart(value: nat)
    requires value < VARINT_LIMIT
    ensures Packed(VarInt(value), value / 128, value % 128, 0)
  {
    assert Pow128(3) == 0x20_0000 && Pow256(0) == 1;
    assert Emitted(value % 128) == [value % 128];
  }

  lemma PackStep(target: seq<Byte>, rest: nat, buffer: nat, groups: nat)
    requires Packed(target, rest, buffer, groups) && rest != 0
    ensures Packed(target, rest / 128, buffer * 256 + (rest % 128 + 128), groups + 1)
  {
    RemainingGroups(rest, groups);
    BufferGrows(buffer, groups, rest % 128 + 128);
    MoveGroup(rest, buffer);
  }

  /** Moving the lowest pending group into the buffer leaves the bytes still to come unchanged. */
  lemma MoveGroup(rest: nat, buffer: nat)
    requires rest != 0
    ensures Continuation(rest / 128) + Emitted(buffer * 256 + (rest % 128 + 128)) == Continuation(rest) + Emitted(buffer)
  {
    var group := rest % 128 + 128;
    EmittedStep(buffer, group);
    calc {
      Continuation(rest / 128) + Emitted(buffer * 256 + group);
      Continuation(rest / 128) + ([group] + Emitted(buffer));
      (Continuation(rest / 128) + [group]) + Emitted(buffer);
      Continuation(rest) + Emitted(buffer);
    }
  }

  lemma RemainingGroups(rest: nat, groups: nat)
    requires groups <= 3 && 1 <= rest < Pow128(3 - groups)
    ensures groups < 3 && rest / 128 < Pow128(3 - (groups + 1))
  {
    assert Pow128(0) == 1;
    var k := 3 - (groups + 1);
    assert Pow128(k + 1) == 128 * Pow128(k);
  }

  lemma BufferGrows(buffer: nat, groups: nat, group: nat)
    requires buffer < 128 * Pow256(groups) && group < 256
    ensures buffer * 256 + group < 128 * Pow256(groups + 1)
  {
    assert Pow256(groups + 1) == 256 * Pow256(groups);
  }

  /** Once every group is packed, the buffer fits in 31 bits and emits exactly the quantity. */
  lemma PackedFits(target: seq<Byte>, buffer: nat, groups: nat)
    requires Packed(target, 0, buffer, groups)
    ensures buffer < 0x8000_0000
    ensures Emitted(buffer) == target
  {
    assert Pow256(3) == 0x100_0000;
    Pow256Monotone(groups, 3);
    assert Continuation(0) == [];
  }

  /** One step of the emitting loop: the low byte goes out, and the rest follows only while bit 7 is set. */
  lemma EmitOne(written: seq<int>, buffer: nat)
    ensures var low := buffer % 256;
            (low / 128) % 2 == 1 ==> buffer / 256 < buffer && (written + [low]) + Emitted(buffer / 256) == written + Emitted(buffer)
    ensures var low := buffer % 256;
            (low / 128) % 2 != 1 ==> written + [low] == written + Emitted(buffer)
  {
    var low := buffer % 256;
    if (low / 128) % 2 == 1 {
      assert Emitted(buffer) == [low] + Emitted(buffer / 256);
    }
  }

  /** Putting a byte with bit 7 set below the buffer emits that byte first, then the old buffer's bytes. */
  lemma EmittedStep(buffer: nat, group: int)
    requires 128 <= group < 256
    ensures Emitted(buffer * 256 + group) == [group] + Emitted(buffer)
  {
    DivModUnique(buffer * 256 + group, 256, buffer, group);
  }
}
