/**
 * Reading a characteristic's stored value back as a C integral type or as a
 * C string: the size check of readValueValidateSize, the little-endian
 * reinterpretation of the stored bytes (`*(int *) bleChar->_value` on the
 * 32-bit ARM targets), and the NUL termination of readValue_charArr.
 */
module Values {
  import opened Protocol

  /** The integral read helpers, by C type; sizes and signedness of the 32-bit ARM ABI. */
  datatype IntKind = Char | UChar | Int | UInt | Long | ULong

  function SizeOf(k: IntKind): (n: nat)
    ensures n == 1 || n == 4
  {
    match k
    case Char => 1
    case UChar => 1
    case Int => 4
    case UInt => 4
    case Long => 4
    case ULong => 4
  }

  /** Plain `char` is unsigned on ARM. */
  predicate IsSigned(k: IntKind) { k == Int || k == Long }

  function Pow256(n: nat): (p: nat)
    ensures p >= 1
  {
    if n == 0 then 1 else 0x100 * Pow256(n - 1)
  }

  /** The unsigned value of bytes stored least significant first. */
  function LittleEndian(b: seq<uint8>): nat
  {
    if b == [] then 0 else b[0] as nat + 0x100 * LittleEndian(b[1..])
  }

  /** The n-byte little-endian representation of x. */
  function ToLittleEndian(x: nat, n: nat): seq<uint8>
  {
    if n == 0 then [] else [(x % 0x100) as uint8] + ToLittleEndian(x / 0x100, n - 1)
  }

  lemma {:induction false} LittleEndianBound(b: seq<uint8>)
    ensures LittleEndian(b) < Pow256(|b|)
  {
    if b != [] {
      LittleEndianBound(b[1..]);
    }
  }

  /** Encoding then decoding returns every value that fits. */
  lemma {:induction false} LittleEndianRoundTrip(x: nat, n: nat)
    requires x < Pow256(n)
    ensures |ToLittleEndian(x, n)| == n
    ensures LittleEndian(ToLittleEndian(x, n)) == x
  {
    if n > 0 {
      LittleEndianRoundTrip(x / 0x100, n - 1);
    }
  }

  /** Decoding then encoding returns the bytes. */
  lemma {:induction false} ToLittleEndianOfDecoded(b: seq<uint8>)
    ensures ToLittleEndian(LittleEndian(b), |b|) == b
  {
    if b != [] {
      ToLittleEndianOfDecoded(b[1..]);
      assert (b[0] as nat + 0x100 * LittleEndian(b[1..])) / 0x100 == LittleEndian(b[1..]);
    }
  }

  /** What `*(T *) value` yields for stored bytes of the right size. */
  function Decode(k: IntKind, b: seq<uint8>): int
  {
    var u := LittleEndian(b);
    if IsSigned(k) && u >= Pow256(|b|) / 2 then u - Pow256(|b|) else u
  }

  /** A decoded value lies in the range of its C type. */
  lemma DecodeInRange(k: IntKind, b: seq<uint8>)
    requires |b| == SizeOf(k)
    ensures IsSigned(k) ==> -0x8000_0000 <= Decode(k, b) < 0x8000_0000
    ensures !IsSigned(k) ==> 0 <= Decode(k, b) < Pow256(SizeOf(k))
  {
    LittleEndianBound(b);
    assert Pow256(4) == 0x1_0000_0000;
  }

  /** The values of the C type. */
  predicate InRange(k: IntKind, x: int)
  {
    var half: int := Pow256(SizeOf(k)) / 2;
    if IsSigned(k) then -half <= x < half else 0 <= x < Pow256(SizeOf(k))
  }

  /** The bytes a value of the C type occupies in memory (two's complement, least significant first). */
  function Encode(k: IntKind, x: int): seq<uint8>
    requires InRange(k, x)
  {
    ToLittleEndian(if x < 0 then x + Pow256(SizeOf(k)) else x, SizeOf(k))
  }

  /** Values of the C type stored as its bytes read back unchanged. */
  lemma DecodeRoundTrip(k: IntKind, x: int)
    requires InRange(k, x)
    ensures Decode(k, Encode(k, x)) == x
  {
    assert Pow256(4) == 0x1_0000_0000;
    LittleEndianRoundTrip(if x < 0 then x + Pow256(SizeOf(k)) else x, SizeOf(k));
  }

  /** Every stored byte pattern of the right size is the memory image of the value read from it. */
  lemma EncodeOfDecode(k: IntKind, b: seq<uint8>)
    requires |b| == SizeOf(k)
    ensures InRange(k, Decode(k, b))
    ensures Encode(k, Decode(k, b)) == b
  {
    DecodeInRange(k, b);
    ToLittleEndianOfDecoded(b);
    LittleEndianBound(b);
    var u := LittleEndian(b);
    assert (if Decode(k, b) < 0 then Decode(k, b) + Pow256(|b|) else Decode(k, b)) == u;
  }

  /**
   * readValue_charArr as written: it reads byte len - 1 of the buffer, which
   * for an empty value lies before the buffer (`None`).
   */
  function TerminateAsWritten(buf: seq<uint8>, len: nat): Option<seq<uint8>>
    requires len <= |buf|
  {
    if len == 0 then None
    else if buf[len - 1] != 0 then Some(buf[..len] + [0])
    else Some(buf)
  }

  /** An empty value makes readValue_charArr read outside its buffer. */
  lemma EmptyValueReadsOutside(buf: seq<uint8>)
    ensures TerminateAsWritten(buf, 0) == None
  {
  }

  /**
   * readValue_charArr with the empty value made a terminated empty string:
   * the buffer is kept when its last byte is already NUL, otherwise it is
   * resized to len + 1 bytes ending in NUL.
   */
  function Terminated(buf: seq<uint8>, len: nat): seq<uint8>
    requires len <= |buf|
  {
    if len > 0 && buf[len - 1] == 0 then buf else buf[..len] + [0]
  }

  /** The result is a C string holding the value's bytes, and agrees with the code for every non-empty value. */
  lemma TerminatedIsCString(buf: seq<uint8>, len: nat)
    requires len <= |buf|
    ensures var r := Terminated(buf, len);
      && len <= |r| && r[..len] == buf[..len]
      && (exists k :: 0 <= k < |r| && r[k] == 0)
      && (len > 0 ==> TerminateAsWritten(buf, len) == Some(r))
      && (len == 0 ==> r == [0])
  {
    var r := Terminated(buf, len);
    if len > 0 && buf[len - 1] == 0 {
      assert r[len - 1] == 0;
    } else {
      assert r[len] == 0;
    }
  }

  /** Reading the string twice changes nothing the second time. */
  lemma TerminatedIdempotent(buf: seq<uint8>, len: nat)
    requires len <= |buf|
    ensures Terminated(Terminated(buf, len), len) == Terminated(buf, len)
  {
    var r := Terminated(buf, len);
    if !(len > 0 && buf[len - 1] == 0) {
      assert r[..len] == buf[..len];
      if len > 0 {
        assert r[len - 1] == buf[len - 1];
      }
    }
  }
}
