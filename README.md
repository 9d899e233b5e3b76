# rust-bitcoin consensus parameters and lock-time encoding, in Dafny

This project models two value layers of rust-bitcoin that consensus depends on.
Both are pure, so the model is written as datatypes, functions and lemmas.

- **Consensus parameter table** (`bitcoin/src/network/params.rs`). `Networks`
  declares the chain variants: `Bitcoin`, `Testnet(V3 | V4)`, `Signet`,
  `Regtest`. `ConsensusParams` declares the `Params` record. Its fields are the
  BIP 16 activation time, the BIP 34/65/66 activation heights, the BIP 9
  threshold and window, the proof-of-work target, the spacing and timespan, and
  two relaxation flags. The module also holds the constants `MAINNET`,
  `TESTNET` (deprecated), `TESTNET3`, `TESTNET4`, `SIGNET`, `REGTEST` and the
  alias `BITCOIN`, the lookup `New`, and `DifficultyAdjustmentInterval`.
- **Absolute lock-time** (`locktime::absolute` in `bitcoin/src/blockdata/mod.rs`).
  `LocktimeAbsolute` has `LockTime = Blocks(Height) | Seconds(MedianTimePast)`.
  The split sits at `LOCKTIME_THRESHOLD` = 500,000,000 (BIP 65, with BIP 113
  for median-time-past). The module also has the conversions to and from the
  consensus `u32` and the consensus encoder and decoder. The encoder writes the
  `u32`. The decoder reads a `u32` and maps it through `FromConsensus`.
- **Relative lock-time rule** (`locktime::relative` in the same file). In
  `LocktimeRelative`, bit 22 of the consensus `u32` picks a lock by 512-second
  intervals over a lock by blocks. Following the Specification section of
  BIP 68, bit 31 disables the lock and the low 16 bits hold the count.
- **Integer codec** (`ConsensusCodec`). An integer of `n` bytes is written
  least significant byte first, and a `u32` is 4 bytes. A
  writer is the byte sequence written so far. A reader is the bytes not yet
  consumed. A read fails with `UnexpectedEof` when fewer than 4 bytes remain.

Fixed-width integers (`Ints`) are bounded subsets of `int`. Bits of a `u32`
are read arithmetically: bit k of `n` is `(n / 2^k) % 2`.

The bodies of `from_consensus` and `to_consensus_u32` (both lock-time kinds)
and the `u32` codec live in the `units` crate and in `consensus::encode`. Those
are not part of this model. The lock-time code calls them, and the model
assumes they behave as its doc comments, BIP 65 and BIP 68 say. The model
writes that behaviour down as `FromConsensus`, `ToConsensus`, `EncodeU32LE`
and `DecodeU32LE`. The deprecated type aliases are Dafny type synonyms, so
each one is the same type as its replacement:

- absolute `Time` is `MedianTimePast`;
- relative `Height` is `NumberOfBlocks`;
- relative `Time` is `NumberOf512Seconds`.

Reading then writing an enabled relative value gives it back only when no bit
outside bit 22 and the count is set; every other bit is dropped.
`ToFromConsensus` states the exact rule and `IgnoredBitExample` shows a value
where the two differ.

`bitcoin/src/blockdata/mod.rs` has no `Encodable` impl for the relative
lock-time, so the relative wire form appears only as an example lemma,
`WireExamples`.

## Model

| member | source | states |
|---|---|---|
| `ConsensusParams.New` | bitcoin/src/network/params.rs:244-252 | Total over every network. The record returned belongs to that network and is one of the five canonical records. |
| `ConsensusParams.NewIsTheCanonicalRecord` | bitcoin/src/network/params.rs:244-252 | For each canonical record, `New` of its network returns exactly that record. |
| `ConsensusParams.BuiltInNetworksDistinct` | bitcoin/src/network/params.rs:141-241 | No two canonical records carry the same `network`, so the table has one record per network. |
| `ConsensusParams.NewInjective` | bitcoin/src/network/params.rs:244-252 | Different networks never receive the same record. |
| `ConsensusParams.DifficultyAdjustmentInterval` | bitcoin/src/network/params.rs:255-257 | For nonzero spacing, the result is the floor of timespan / spacing: `r * spacing <= timespan < (r + 1) * spacing`. |
| `ConsensusParams.BuiltInRetargetInterval` | bitcoin/src/network/params.rs:151-238 | Every canonical record has spacing 600 and timespan 1,209,600, so its interval is 2016. |
| `ConsensusParams.CustomSpacingInterval` | bitcoin/src/network/params.rs:17-28 | Signet's record with the spacing overwritten to 120 still belongs to signet and has interval 10080. |
| `ConsensusParams.PowLimitIsMaxAttainable` | bitcoin/src/network/params.rs:90-104 | In every canonical record, and in `TESTNET`, the deprecated `pow_limit` equals `max_attainable_target`. |
| `ConsensusParams.AliasesAgree` | bitcoin/src/network/params.rs:136-190 | `TESTNET` equals `TESTNET3` field by field, and so does `New(Testnet(V3))`. `BITCOIN` is `MAINNET`, and so is `New(Bitcoin)`. |
| `ConsensusParams.ActivationThresholdWithinWindow` | bitcoin/src/network/params.rs:84-89 | The BIP 9 threshold never exceeds the window. It is at least 95% on mainnet and signet and exactly 75% on the others. |
| `ConsensusParams.WindowIsRetargetPeriod` | bitcoin/src/network/params.rs:84-89 | Outside regtest, the confirmation window equals the difficulty adjustment interval. |
| `ConsensusParams.OnlyRegtestSkipsRetargeting` | bitcoin/src/network/params.rs:226-241 | `no_pow_retargeting` holds exactly for regtest. |
| `ConsensusParams.MinDifficultyBlocks` | bitcoin/src/network/params.rs:141-241 | Min-difficulty blocks are refused exactly on mainnet and signet. |
| `ConsensusParams.ActivationHeights` | bitcoin/src/network/params.rs:141-241 | Mainnet activates BIP 34/65/66 at 227931, 388381 and 363725. Regtest puts BIP 34 at 100000000. Every network has the BIP 16 time 1333238400. |
| `ConsensusCodec.LittleEndianValue` | bitcoin/src/blockdata/mod.rs:61 | The value that `n` bytes denote, least significant byte first, is below 256^n. |
| `ConsensusCodec.EncodeLE` | bitcoin/src/blockdata/mod.rs:54 | For a value below 256^n, the encoding has `n` bytes whose little-endian value is the input. |
| `ConsensusCodec.EncodeLittleEndianValue` | bitcoin/src/blockdata/mod.rs:54-61 | Re-encoding the value of any byte sequence, in that many bytes, gives the sequence back, so the byte encoding is injective. |
| `ConsensusCodec.EncodeU32LE` | bitcoin/src/blockdata/mod.rs:53-54 | The encoding is 4 bytes whose little-endian value is the input. |
| `ConsensusCodec.DecodeU32LE` | bitcoin/src/blockdata/mod.rs:61 | Fails with `UnexpectedEof` exactly when fewer than 4 bytes remain. Otherwise it returns the little-endian value of the first 4 bytes and the bytes after them. |
| `ConsensusCodec.WriteU32LE` | bitcoin/src/blockdata/mod.rs:54 | Appends 4 bytes to the writer, leaves the earlier contents as they were, and reports 4 bytes written. The appended bytes read back as the value. |
| `ConsensusCodec.DecodeResult.Map` | bitcoin/src/blockdata/mod.rs:61 | Maps a decoded value and keeps both the rest of the stream and any error unchanged. |
| `ConsensusCodec.DecodeEncodeU32` | bitcoin/src/blockdata/mod.rs:53-61 | Every `u32` reads back from its encoding, whatever bytes follow. |
| `ConsensusCodec.EncodeDecodeU32` | bitcoin/src/blockdata/mod.rs:53-61 | Every input of at least 4 bytes decodes successfully, and re-encoding the value gives back those 4 bytes. |
| `LocktimeAbsolute.FromConsensus` | bitcoin/src/blockdata/mod.rs:35-36 | Every `u32` is a lock-time. It is a height lock exactly when below 500,000,000 and a median-time-past lock otherwise, and it carries the raw value unchanged as its height or time. |
| `LocktimeAbsolute.ToConsensus` | bitcoin/src/blockdata/mod.rs:53 | The consensus value is below the threshold exactly for a height lock. |
| `LocktimeAbsolute.ConsensusRoundTrip` | bitcoin/src/blockdata/mod.rs:53-61 | `FromConsensus` and `ToConsensus` are inverse bijections, which is the assumption the encoder and decoder rely on. |
| `LocktimeAbsolute.ThresholdBoundary` | bitcoin/src/blockdata/mod.rs:35-36 | 499,999,999 is a height lock and 500,000,000 is a median-time-past lock. |
| `LocktimeAbsolute.ConsensusEncode` | bitcoin/src/blockdata/mod.rs:50-56 | Writes exactly the 4-byte little-endian form of the consensus value after the writer's contents and returns 4. |
| `LocktimeAbsolute.ConsensusDecode` | bitcoin/src/blockdata/mod.rs:58-63 | Fails exactly when fewer than 4 bytes remain, so every 4-byte pattern decodes. Otherwise it consumes 4 bytes, and the decoded lock's consensus value is their little-endian value. |
| `LocktimeAbsolute.DecodeEncode` | bitcoin/src/blockdata/mod.rs:50-63 | Decoding what the encoder appended, followed by any bytes, returns the lock-time and those bytes. |
| `LocktimeAbsolute.EncodeDecode` | bitcoin/src/blockdata/mod.rs:50-63 | Every input of at least 4 bytes decodes, and re-encoding the result reproduces exactly those 4 bytes. |
| `LocktimeAbsolute.DecodedKind` | bitcoin/src/blockdata/mod.rs:33-36 | A decoded lock is a height lock exactly when the raw `u32` read is below the threshold. Otherwise it is a median-time-past lock. |
| `LocktimeRelative.IsTimeBased` | bitcoin/src/blockdata/mod.rs:69-70 | The bit-22 classifier: a value is by time exactly when its 23 low bits reach `0x0040_0000`. |
| `LocktimeRelative.IsDisabled` | bitcoin/src/blockdata/mod.rs:69-70 | The disable flag (bit 31, BIP 68) is set exactly when the value is at least 2^31. |
| `LocktimeRelative.KeptBits` | bitcoin/src/blockdata/mod.rs:69-70 | The BIP 68 mask: keeps the count and the bit-22 classification; above the count only bit 22 may be set, exactly when it is set in the input, so bits 16-21 and 23-31 are cleared. |
| `LocktimeRelative.FromConsensus` | bitcoin/src/blockdata/mod.rs:69-76 | Refuses exactly the values with bit 31 set, reporting the value. An enforced lock is by time exactly when bit 22 is set, and its count is the low 16 bits. |
| `LocktimeRelative.ToConsensus` | bitcoin/src/blockdata/mod.rs:69-70 | The consensus value never has bit 31 set. Bit 22 is set exactly for a time lock. No bit outside bit 22 and the count is set. |
| `LocktimeRelative.FromToConsensus` | bitcoin/src/blockdata/mod.rs:69-76 | Every enforced lock reads back from its consensus value. |
| `LocktimeRelative.ToFromConsensus` | bitcoin/src/blockdata/mod.rs:69-76 | For an enabled value, reading then writing keeps bit 22 and the count and clears every other bit. |
| `LocktimeRelative.IgnoredBits` | bitcoin/src/blockdata/mod.rs:69-70 | Bits outside bit 22 and the count do not change how an enabled value is read. |
| `LocktimeRelative.IgnoredBitExample` | bitcoin/src/blockdata/mod.rs:69-70 | `0x0001_0005` reads as 5 blocks and writes back as 5. An ignored bit is dropped, not rejected. |
| `LocktimeRelative.WireExamples` | bitcoin/src/blockdata/mod.rs:69-76 | 5 blocks encodes as `05 00 00 00` and 5 intervals as `05 00 40 00`. `00 00 00 80` decodes as a `u32` but is refused as disabled. |

## Left out

- DifficultyAdjustmentInterval: requires `pow_target_spacing > 0` and has no error result. `difficulty_adjustment_interval` divides with Rust's `/`, which panics on zero spacing, so a zero-spacing custom record has no interval in the model either.
- Target internals: `Target` and `CompactTarget` live in the `pow` module. `Target` is modelled as one named tag per `MAX_ATTAINABLE_*` constant. The model gives no numeric values. `target.difficulty(...)` is left out.
- Target: distinct tags are unequal as Dafny values, so the model can prove, for example, `MAINNET.max_attainable_target != TESTNET3.max_attainable_target`. The library compares targets by number, and its mainnet and testnet limits are the same number. That inequality is an artefact of the encoding, and no member states or relies on it.
- The difficulty-retarget algorithm itself, including clamping, is not in these files. Only the interval count is modelled.
- The custom-signet doc example is modelled only as a record update of the spacing (`CustomSpacingInterval`). Its `challenge_script`, `ScriptBuf` and BIP 325 are left out.
- `From<Network> for Params` and `From<&Network> for Params` are `New` itself, so there is no second member for them. `From<Network>` and `From<&Network>` for `&'static Params`, and `AsRef<Params> for Network`, call `Network::params`, which is defined elsewhere. `AsRef<Params> for Params` is the identity.
- The `static` items and the `const` items hold the same records. The difference between them is only about storage, so the model has one constant per record.
- `#[non_exhaustive]` on `Params` has no counterpart: a Dafny datatype is always constructible.
- `BlockHeight` and `BlockHeightInterval` are their `u32` values. The `units` newtypes around them are not part of this model.
- I/O errors: the writer is an appended byte sequence that never fails. The reader is a byte sequence with a remainder, and its only failure is `UnexpectedEof`. An error from the underlying writer or reader is not propagated.
- The bodies of the `units` crate are not part of this model: `from_consensus`, `to_consensus_u32`, the relative lock-time constructors, `TimeOverflowError`, `InvalidHeightError`, `InvalidTimeError`, 512-second rounding, the parse errors and `ConversionError`. Relative lock-times follow BIP 68 only.
- The `fee_rate` and `weight` re-exports and the `serde` feature are left out.
- The `block`, `constants`, `opcodes`, `script`, `transaction` and `witness` submodules are only declared in this file and are left out.
