/**
 * Relative lock-times (nSequence / OP_CHECKSEQUENCEVERIFY), following the
 * Specification section of BIP 68: bit 31 of the consensus `u32` disables the
 * lock, bit 22 selects a lock by time over a lock by blocks, and the low 16
 * bits hold the count; all other bits are ignored. Bits are read
 * arithmetically: bit k of `n` is `(n / 2^k) % 2`.
 */
module LocktimeRelative {
  import opened Ints
  import opened ConsensusCodec

  /** Bit 31: the field imposes no relative lock. */
  const LOCK_TIME_DISABLE_FLAG: int := 0x8000_0000
  /** Bit 22: the count is in units of 512 seconds rather than blocks. */
  const LOCK_TYPE_MASK: int := 0x0040_0000
  /** The low 16 bits hold the count: it is the value modulo this. */
  const COUNT_LIMIT: int := 0x1_0000

  /** A relative lock of this many blocks. */
  datatype NumberOfBlocks = NumberOfBlocks(count: uint16)
  /** A relative lock of this many 512-second intervals. */
  datatype NumberOf512Seconds = NumberOf512Seconds(intervals: uint16)
  /** Deprecated name of `NumberOfBlocks`. */
  type Height = NumberOfBlocks
  /** Deprecated name of `NumberOf512Seconds`. */
  type Time = NumberOf512Seconds

  /** An enforced relative lock, by blocks or by 512-second intervals. */
  datatype LockTime = Blocks(blocks: NumberOfBlocks) | Time(time: NumberOf512Seconds)

  /** The consensus value had its disable flag set. */
  datatype DisabledLockTimeError = DisabledLockTimeError(value: uint32)

  /** The outcome of reading an enforced relative lock from a consensus value. */
  datatype Conversion = Enforced(lock: LockTime) | Disabled(error: DisabledLockTimeError)

  /**
   * The classifier of the raw value: a lock by time exactly when bit 22 is
   * set, that is, when the 23 low bits reach the flag's value.
   */
  predicate IsTimeBased(n: uint32)
    ensures IsTimeBased(n) <==> n % (2 * LOCK_TYPE_MASK) >= LOCK_TYPE_MASK
  {
    (n / LOCK_TYPE_MASK) % 2 == 1
  }

  /** The raw value carries the disable flag, its top bit: it is at least 2^31. */
  predicate IsDisabled(n: uint32)
    ensures IsDisabled(n) <==> n >= LOCK_TIME_DISABLE_FLAG
  {
    n / LOCK_TIME_DISABLE_FLAG == 1
  }

  /**
   * `n` with every bit cleared except the type flag and the count: the count
   * and the classification are kept, and above the count only bit 22 may be
   * set, exactly when it is set in `n`.
   */
  function KeptBits(n: uint32): (k: uint32)
    ensures k % COUNT_LIMIT == n % COUNT_LIMIT
    ensures IsTimeBased(k) <==> IsTimeBased(n)
    ensures !IsDisabled(k) && k < 2 * LOCK_TYPE_MASK
    ensures k / COUNT_LIMIT == if IsTimeBased(n) then LOCK_TYPE_MASK / COUNT_LIMIT else 0
  {
    n % COUNT_LIMIT + if IsTimeBased(n) then LOCK_TYPE_MASK else 0
  }

  /** Reads an enforced relative lock from a consensus value, refusing a disabled one. */
  function FromConsensus(n: uint32): (c: Conversion)
    ensures c.Disabled? <==> IsDisabled(n)
    ensures c.Disabled? ==> c.error.value == n
    ensures c.Enforced? ==> (c.lock.Time? <==> IsTimeBased(n))
    ensures c.Enforced? && c.lock.Blocks? ==> c.lock.blocks.count == n % COUNT_LIMIT
    ensures c.Enforced? && c.lock.Time? ==> c.lock.time.intervals == n % COUNT_LIMIT
  {
    if IsDisabled(n) then Disabled(DisabledLockTimeError(n))
    else if IsTimeBased(n) then Enforced(Time(NumberOf512Seconds(n % COUNT_LIMIT)))
    else Enforced(Blocks(NumberOfBlocks(n % COUNT_LIMIT)))
  }

  /** The consensus value of an enforced lock: never disabled, bit 22 set only for a time lock, no ignored bit set. */
  function ToConsensus(lt: LockTime): (n: uint32)
    ensures !IsDisabled(n)
    ensures IsTimeBased(n) <==> lt.Time?
    ensures KeptBits(n) == n
  {
    match lt
    case Blocks(b) => b.count
    case Time(t) => t.intervals + LOCK_TYPE_MASK
  }

  /** Every enforced lock reads back from its consensus value. */
  lemma FromToConsensus(lt: LockTime)
    ensures FromConsensus(ToConsensus(lt)) == Enforced(lt)
  {
  }

  /**
   * Reading then writing keeps the type flag and the count and clears every
   * other bit; since `ToConsensus` never sets an ignored bit, this gives back
   * `n` exactly when `n` had none set.
   */
  lemma ToFromConsensus(n: uint32)
    requires !IsDisabled(n)
    ensures ToConsensus(FromConsensus(n).lock) == KeptBits(n)
  {
  }

  /** Bits other than the flags and the count do not change what an enabled value means. */
  lemma IgnoredBits(n: uint32)
    requires !IsDisabled(n)
    ensures FromConsensus(n) == FromConsensus(KeptBits(n))
  {
  }

  /** A set ignored bit is dropped: bit 16 set beside a count of 5 reads as 5 blocks and writes back as 5. */
  lemma IgnoredBitExample()
    ensures FromConsensus(0x0001_0005) == Enforced(Blocks(NumberOfBlocks(5)))
    ensures ToConsensus(FromConsensus(0x0001_0005).lock) == 5
  {
  }

  /** On the wire: 5 blocks is `05 00 00 00`, 5 intervals `05 00 40 00`, and `00 00 00 80` is disabled. */
  lemma WireExamples()
    ensures EncodeU32LE(ToConsensus(Blocks(NumberOfBlocks(5)))) == [0x05, 0x00, 0x00, 0x00]
    ensures EncodeU32LE(ToConsensus(Time(NumberOf512Seconds(5)))) == [0x05, 0x00, 0x40, 0x00]
    ensures var d := DecodeU32LE([0x00, 0x00, 0x00, 0x80]);
      d.Ok? && FromConsensus(d.value).Disabled?
  {
    var blocks, time, disabled := [0x05, 0x00, 0x00, 0x00], [0x05, 0x00, 0x40, 0x00], [0x00, 0x00, 0x00, 0x80];
    assert LittleEndianValue(blocks) == 5;
    EncodeLittleEndianValue(blocks);
    assert LittleEndianValue(time) == 5 + LOCK_TYPE_MASK;
    EncodeLittleEndianValue(time);
    assert disabled[..4] == disabled;
    assert LittleEndianValue(disabled) == LOCK_TIME_DISABLE_FLAG;
  }
}
