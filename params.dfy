/**
 * Per-network consensus parameters: the activation points of BIP 16, BIP 34,
 * BIP 65 and BIP 66, the BIP 9 signalling window and threshold, and the
 * proof-of-work retarget constants, with one canonical record per network.
 */
module ConsensusParams {
  import opened Ints
  import opened Networks

  type BlockHeight = uint32
  type BlockHeightInterval = uint32

  /**
   * The maximum attainable proof-of-work target of each network, as a named
   * constant. Its numeric value lives in the proof-of-work module, which is
   * not part of this model.
   */
  datatype Target =
    | MaxAttainableMainnet
    | MaxAttainableTestnet
    | MaxAttainableSignet
    | MaxAttainableRegtest

  /** Parameters that influence chain consensus. */
  datatype Params = Params(
    network: Network,
    bip16_time: uint32,
    bip34_height: BlockHeight,
    bip65_height: BlockHeight,
    bip66_height: BlockHeight,
    rule_change_activation_threshold: BlockHeightInterval,
    miner_confirmation_window: BlockHeightInterval,
    // deprecated: kept equal to `max_attainable_target`
    pow_limit: Target,
    max_attainable_target: Target,
    pow_target_spacing: uint64,
    pow_target_timespan: uint32,
    allow_min_difficulty_blocks: bool,
    no_pow_retargeting: bool
  )

  /** Apr 1 2012, when BIP 16 became active on every built-in network. */
  const BIP16_TIME: uint32 := 1333238400
  /** Ten minutes per block. */
  const TARGET_SPACING: uint64 := 10 * 60
  /** Two weeks per retarget period. */
  const TARGET_TIMESPAN: uint32 := 14 * 24 * 60 * 60

  const MAINNET: Params := Params(
    network := Bitcoin,
    bip16_time := BIP16_TIME,
    bip34_height := 227931,
    bip65_height := 388381,
    bip66_height := 363725,
    rule_change_activation_threshold := 1916,  // 95%
    miner_confirmation_window := 2016,
    pow_limit := MaxAttainableMainnet,
    max_attainable_target := MaxAttainableMainnet,
    pow_target_spacing := TARGET_SPACING,
    pow_target_timespan := TARGET_TIMESPAN,
    allow_min_difficulty_blocks := false,
    no_pow_retargeting := false)

  /** The deprecated name of the testnet3 record, written out as its own literal. */
  const TESTNET: Params := Params(
    network := Testnet(V3),
    bip16_time := BIP16_TIME,
    bip34_height := 21111,
    bip65_height := 581885,
    bip66_height := 330776,
    rule_change_activation_threshold := 1512,  // 75%
    miner_confirmation_window := 2016,
    pow_limit := MaxAttainableTestnet,
    max_attainable_target := MaxAttainableTestnet,
    pow_target_spacing := TARGET_SPACING,
    pow_target_timespan := TARGET_TIMESPAN,
    allow_min_difficulty_blocks := true,
    no_pow_retargeting := false)

  const TESTNET3: Params := Params(
    network := Testnet(V3),
    bip16_time := BIP16_TIME,
    bip34_height := 21111,
    bip65_height := 581885,
    bip66_height := 330776,
    rule_change_activation_threshold := 1512,  // 75%
    miner_confirmation_window := 2016,
    pow_limit := MaxAttainableTestnet,
    max_attainable_target := MaxAttainableTestnet,
    pow_target_spacing := TARGET_SPACING,
    pow_target_timespan := TARGET_TIMESPAN,
    allow_min_difficulty_blocks := true,
    no_pow_retargeting := false)

  const TESTNET4: Params := Params(
    network := Testnet(V4),
    bip16_time := BIP16_TIME,
    bip34_height := 1,
    bip65_height := 1,
    bip66_height := 1,
    rule_change_activation_threshold := 1512,  // 75%
    miner_confirmation_window := 2016,
    pow_limit := MaxAttainableTestnet,
    max_attainable_target := MaxAttainableTestnet,
    pow_target_spacing := TARGET_SPACING,
    pow_target_timespan := TARGET_TIMESPAN,
    allow_min_difficulty_blocks := true,
    no_pow_retargeting := false)

  const SIGNET: Params := Params(
    network := Signet,
    bip16_time := BIP16_TIME,
    bip34_height := 1,
    bip65_height := 1,
    bip66_height := 1,
    rule_change_activation_threshold := 1916,  // 95%
    miner_confirmation_window := 2016,
    pow_limit := MaxAttainableSignet,
    max_attainable_target := MaxAttainableSignet,
    pow_target_spacing := TARGET_SPACING,
    pow_target_timespan := TARGET_TIMESPAN,
    allow_min_difficulty_blocks := false,
    no_pow_retargeting := false)

  const REGTEST: Params := Params(
    network := Regtest,
    bip16_time := BIP16_TIME,
    bip34_height := 100000000,  // not activated on regtest
    bip65_height := 1351,
    bip66_height := 1251,
    rule_change_activation_threshold := 108,  // 75%
    miner_confirmation_window := 144,
    pow_limit := MaxAttainableRegtest,
    max_attainable_target := MaxAttainableRegtest,
    pow_target_spacing := TARGET_SPACING,
    pow_target_timespan := TARGET_TIMESPAN,
    allow_min_difficulty_blocks := true,
    no_pow_retargeting := true)

  /** The mainnet parameters under their alias name. */
  const BITCOIN: Params := MAINNET

  /** The canonical records, one per network. */
  const BUILT_IN: seq<Params> := [MAINNET, TESTNET3, TESTNET4, SIGNET, REGTEST]

  /** The canonical parameter record of `network`. */
  function New(network: Network): (p: Params)
    ensures p.network == network
    ensures p in BUILT_IN
  {
    match network
    case Bitcoin => MAINNET
    case Testnet(V3) => TESTNET3
    case Testnet(V4) => TESTNET4
    case Signet => SIGNET
    case Regtest => REGTEST
  }

  /** The number of blocks between difficulty adjustments: the timespan divided by the spacing, rounded down. */
  function DifficultyAdjustmentInterval(p: Params): (blocks: uint64)
    requires p.pow_target_spacing > 0
    ensures blocks * p.pow_target_spacing <= p.pow_target_timespan
    ensures p.pow_target_timespan < (blocks + 1) * p.pow_target_spacing
  {
    (p.pow_target_timespan as int) / p.pow_target_spacing
  }

  /** No two canonical records belong to the same network. */
  lemma BuiltInNetworksDistinct(i: nat, j: nat)
    requires i < |BUILT_IN| && j < |BUILT_IN|
    requires BUILT_IN[i].network == BUILT_IN[j].network
    ensures i == j
  {
  }

  /** `New` hands out, for each network, the one canonical record whose `network` it is. */
  lemma NewIsTheCanonicalRecord(p: Params)
    requires p in BUILT_IN
    ensures New(p.network) == p
  {
  }

  /** `New` never gives two networks the same record. */
  lemma NewInjective(n: Network, m: Network)
    requires New(n) == New(m)
    ensures n == m
  {
  }

  /** Every canonical record has a ten-minute spacing and a two-week timespan, hence 2016 blocks per retarget. */
  lemma BuiltInRetargetInterval(n: Network)
    ensures New(n).pow_target_spacing == 600 && New(n).pow_target_timespan == 1209600
    ensures DifficultyAdjustmentInterval(New(n)) == 2016
  {
  }

  /** The deprecated `pow_limit` field carries the same target as `max_attainable_target`. */
  lemma PowLimitIsMaxAttainable(n: Network)
    ensures New(n).pow_limit == New(n).max_attainable_target
    ensures TESTNET.pow_limit == TESTNET.max_attainable_target
  {
  }

  /** The deprecated aliases are the records they stand for, field by field. */
  lemma AliasesAgree()
    ensures TESTNET == TESTNET3 == New(Testnet(V3))
    ensures BITCOIN == MAINNET == New(Bitcoin)
  {
  }

  /** The BIP 9 activation threshold never exceeds the window: 95% on mainnet and signet, 75% elsewhere. */
  lemma ActivationThresholdWithinWindow(n: Network)
    ensures New(n).rule_change_activation_threshold <= New(n).miner_confirmation_window
    ensures n == Bitcoin || n == Signet ==>
      100 * New(n).rule_change_activation_threshold >= 95 * New(n).miner_confirmation_window
    ensures n != Bitcoin && n != Signet ==>
      4 * New(n).rule_change_activation_threshold == 3 * New(n).miner_confirmation_window
  {
  }

  /** Outside regtest the confirmation window is one retarget period. */
  lemma WindowIsRetargetPeriod(n: Network)
    requires n != Regtest
    ensures New(n).miner_confirmation_window == DifficultyAdjustmentInterval(New(n))
  {
  }

  /** Only regtest turns retargeting off. */
  lemma OnlyRegtestSkipsRetargeting(n: Network)
    ensures New(n).no_pow_retargeting <==> n == Regtest
  {
  }

  /** Mainnet and signet are the networks that refuse minimum-difficulty blocks. */
  lemma MinDifficultyBlocks(n: Network)
    ensures !New(n).allow_min_difficulty_blocks <==> n == Bitcoin || n == Signet
  {
  }

  /** The activation heights of mainnet and the disabled BIP 34 on regtest. */
  lemma ActivationHeights()
    ensures New(Bitcoin).bip34_height == 227931
    ensures New(Bitcoin).bip65_height == 388381
    ensures New(Bitcoin).bip66_height == 363725
    ensures New(Regtest).bip34_height == 100000000
    ensures forall n :: New(n).bip16_time == 1333238400
  {
  }

  /**
   * A custom record built from signet with a two-minute spacing keeps signet's
   * identity and retargets every 10080 blocks.
   */
  lemma CustomSpacingInterval()
    ensures var p := New(Signet).(pow_target_spacing := 120);
      p.network == Signet && DifficultyAdjustmentInterval(p) == 10080
  {
  }
}
