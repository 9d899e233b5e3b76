/**
 * Absolute lock-times (nLockTime / OP_CHECKLOCKTIMEVERIFY): a consensus `u32`
 * that is a block height below LOCKTIME_THRESHOLD and a median-time-past
 * timestamp from it on (BIP 65, BIP 113), encoded as that `u32`.
 */
module LocktimeAbsolute {
  import opened Ints
  import opened ConsensusCodec

  /** Values below this are block heights, values from it on are times. */
  const LOCKTIME_THRESHOLD: int := 500_000_000

  /** A block height usable in an absolute lock-time. */
  type Height = h: uint32 | h < LOCKTIME_THRESHOLD
  /** A median-time-past timestamp usable in an absolute lock-time. */
  type MedianTimePast = t: uint32 | LOCKTIME_THRESHOLD <= t witness LOCKTIME_THRESHOLD
  /** Deprecated name of `MedianTimePast`. */
  type Time = MedianTimePast

  /** A lock by block height or by median-time-past. */
  datatype LockTime = Blocks(height: Height) | Seconds(time: MedianTimePast)

  /** Interprets a raw consensus value; every `u32` is a valid lock-time. */
  function FromConsensus(v: uint32): (lt: LockTime)
    ensures lt.Blocks? <==> v < LOCKTIME_THRESHOLD
    ensures lt.Seconds? <==> LOCKTIME_THRESHOLD <= v
    ensures lt.Blocks? ==> lt.height == v
    ensures lt.Seconds? ==> lt.time == v
  {
    if v < LOCKTIME_THRESHOLD then Blocks(v) else Seconds(v)
  }

  /** The raw consensus value of a lock-time; its side of the threshold tells its kind. */
  function ToConsensus(lt: LockTime): (v: uint32)
    ensures v < LOCKTIME_THRESHOLD <==> lt.Blocks?
  {
    match lt
    case Blocks(h) => h
    case Seconds(t) => t
  }

  /** `FromConsensus` and `ToConsensus` are inverse bijections between `u32` and `LockTime`. */
  lemma ConsensusRoundTrip(v: uint32, lt: LockTime)
    ensures ToConsensus(FromConsensus(v)) == v
    ensures FromConsensus(ToConsensus(lt)) == lt
  {
  }

  /** Writes the lock-time to `w`: the four little-endian bytes of its consensus value. */
  function ConsensusEncode(lt: LockTime, w: seq<uint8>): (r: (seq<uint8>, nat))
    ensures r.1 == 4
    ensures r.0 == w + EncodeU32LE(ToConsensus(lt))
  {
    WriteU32LE(ToConsensus(lt), w)
  }

  /** Reads a lock-time: a `u32` mapped through `FromConsensus`. */
  function ConsensusDecode(r: seq<uint8>): (d: DecodeResult<LockTime>)
    ensures d.Err? <==> |r| < 4
    ensures d.Err? ==> d.error == UnexpectedEof
    ensures d.Ok? ==> d.rest == r[4..] && ToConsensus(d.value) == LittleEndianValue(r[..4])
  {
    DecodeU32LE(r).Map(FromConsensus)
  }

  /** Decoding the bytes an encoding appended gives back the lock-time and whatever followed. */
  lemma DecodeEncode(lt: LockTime, w: seq<uint8>, rest: seq<uint8>)
    ensures var (out, n) := ConsensusEncode(lt, w);
      n == 4 && ConsensusDecode(out[|w|..] + rest) == Ok(lt, rest)
  {
  }

  /** Every 4-byte pattern decodes, and re-encoding the result reproduces those 4 bytes. */
  lemma EncodeDecode(r: seq<uint8>)
    requires |r| >= 4
    ensures ConsensusDecode(r).Ok?
    ensures ConsensusEncode(ConsensusDecode(r).value, []).0 == r[..4]
  {
    EncodeDecodeU32(r);
    var v := DecodeU32LE(r).value;
    assert EncodeU32LE(v) == r[..4];
    ConsensusRoundTrip(v, Blocks(0));
  }

  /** A decoded lock-time is a height lock exactly when the raw value read is below the threshold. */
  lemma DecodedKind(r: seq<uint8>)
    requires |r| >= 4
    ensures ConsensusDecode(r).value.Blocks? <==> LittleEndianValue(r[..4]) < LOCKTIME_THRESHOLD
    ensures ConsensusDecode(r).value.Seconds? <==> LOCKTIME_THRESHOLD <= LittleEndianValue(r[..4])
  {
  }

  /** The threshold boundary: 499,999,999 is the last height, 500,000,000 the first time. */
  lemma ThresholdBoundary()
    ensures FromConsensus(499_999_999) == Blocks(499_999_999)
    ensures FromConsensus(500_000_000) == Seconds(500_000_000)
  {
  }
}
