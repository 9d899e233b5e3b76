/**
 * The consensus encoding of fixed-width integers: their bytes, least
 * significant first; a `u32` takes four. A writer is the byte sequence written
 * so far, a reader the bytes not yet consumed.
 */
module ConsensusCodec {
  import opened Ints

  /** Why reading from a byte stream failed. */
  datatype Error = UnexpectedEof

  /** What a consensus decoder returns: the value and the unread bytes, or an error. */
  datatype DecodeResult<+T> = Ok(value: T, rest: seq<uint8>) | Err(error: Error) {
    /** Applies `f` to a decoded value, leaving the stream position and any error alone. */
    function Map<U>(f: T -> U): (r: DecodeResult<U>)
      ensures r.Ok? <==> Ok?
      ensures r.Ok? ==> r.value == f(value) && r.rest == rest
      ensures r.Err? ==> r.error == error
    {
      match this
      case Ok(v, rest) => Ok(f(v), rest)
      case Err(e) => Err(e)
    }
  }

  /** 256 to the power `n`: one more than the largest value `n` bytes hold. */
  function Pow256(n: nat): (p: nat)
    ensures p > 0
  {
    if n == 0 then 1 else 0x100 * Pow256(n - 1)
  }

  /** The number a byte sequence denotes, least significant byte first. */
  function LittleEndianValue(b: seq<uint8>): (v: nat)
    ensures v < Pow256(|b|)
  {
    if b == [] then 0 else b[0] + 0x100 * LittleEndianValue(b[1..])
  }

  /** The `n` little-endian bytes of `v`. */
  function EncodeLE(v: nat, n: nat): (b: seq<uint8>)
    requires v < Pow256(n)
    ensures |b| == n && LittleEndianValue(b) == v
  {
    if n == 0 then []
    else
      DivideBelowPower(v, n);
      [v % 0x100] + EncodeLE(v / 0x100, n - 1)
  }

  /** Dropping the low byte of a value below 256^n leaves one below 256^(n-1). */
  lemma DivideBelowPower(v: nat, n: nat)
    requires n > 0 && v < Pow256(n)
    ensures v / 0x100 < Pow256(n - 1)
  {
  }

  /** A byte and a quotient that recompose `v` are its remainder and quotient by 256. */
  lemma DivModUnique(v: int, low: uint8, high: int)
    requires v == low + 0x100 * high
    ensures v % 0x100 == low && v / 0x100 == high
  {
  }

  /** Encoding the value of `b` in `|b|` bytes gives back `b`: the byte encoding is injective. */
  lemma {:induction false} EncodeLittleEndianValue(b: seq<uint8>)
    ensures EncodeLE(LittleEndianValue(b), |b|) == b
  {
    if b != [] {
      var high := LittleEndianValue(b[1..]);
      DivModUnique(LittleEndianValue(b), b[0], high);
      EncodeLittleEndianValue(b[1..]);
    }
  }

  /** The four bytes of a `u32`, least significant first. */
  function EncodeU32LE(v: uint32): (b: seq<uint8>)
    ensures |b| == 4 && LittleEndianValue(b) == v
  {
    assert Pow256(4) == U32_LIMIT;
    EncodeLE(v, 4)
  }

  /** Reads a `u32` from the front of `s`; fails exactly when fewer than four bytes remain. */
  function DecodeU32LE(s: seq<uint8>): (r: DecodeResult<uint32>)
    ensures r.Err? <==> |s| < 4
    ensures r.Err? ==> r.error == UnexpectedEof
    ensures r.Ok? ==> r.rest == s[4..] && r.value == LittleEndianValue(s[..4])
  {
    if |s| < 4 then Err(UnexpectedEof)
    else
      assert Pow256(|s[..4]|) == U32_LIMIT;
      Ok(LittleEndianValue(s[..4]), s[4..])
  }

  /** Writes `v` to the writer `w`; returns the new writer contents and the byte count. */
  function WriteU32LE(v: uint32, w: seq<uint8>): (r: (seq<uint8>, nat))
    ensures r.1 == 4 && |r.0| == |w| + 4
    ensures r.0[..|w|] == w && DecodeU32LE(r.0[|w|..]) == Ok(v, [])
  {
    var out := w + EncodeU32LE(v);
    DecodeEncodeU32(v, []);
    assert out[|w|..] == EncodeU32LE(v) + [];
    (out, 4)
  }

  /** Every 32-bit value reads back from its encoding, whatever follows it. */
  lemma DecodeEncodeU32(v: uint32, rest: seq<uint8>)
    ensures DecodeU32LE(EncodeU32LE(v) + rest) == Ok(v, rest)
  {
  }

  /** Every sequence of at least four bytes decodes, and re-encoding gives back its first four bytes. */
  lemma EncodeDecodeU32(s: seq<uint8>)
    requires |s| >= 4
    ensures DecodeU32LE(s).Ok?
    ensures EncodeU32LE(DecodeU32LE(s).value) + DecodeU32LE(s).rest == s
  {
    EncodeLittleEndianValue(s[..4]);
    assert s == s[..4] + s[4..];
  }
}
