/** Values shared by every component: integer widths, engine statuses, forkchoice states, payloads. */
module Types {
  import opened Division

  datatype Option<+T> = None | Some(value: T)

  const U64_LIMIT: nat := 0x1_0000_0000_0000_0000
  const U256_LIMIT: nat := 0x1_0000_0000_0000_0000_0000_0000_0000_0000_0000_0000_0000_0000_0000_0000_0000_0000

  type U64 = n: nat | n < U64_LIMIT
  type U256 = n: nat | n < U256_LIMIT

  /** Hashes, addresses and withdrawals are only ever copied and compared. */
  type Hash = nat
  type Address = nat
  type Withdrawal = nat

  function SaturatingSub(a: nat, b: nat): nat {
    if b <= a then a - b else 0
  }

  datatype Verdict = Valid | Invalid | InvalidBlockHash | Accepted | Syncing

  datatype PayloadStatus = PayloadStatus(
    verdict: Verdict,
    latestValidHash: Option<Hash>,
    validationError: Option<string>)

  /** A verdict the engine will not revise. */
  predicate IsDefinite(status: PayloadStatus) {
    status.verdict.Valid? || status.verdict.Invalid? || status.verdict.InvalidBlockHash?
  }

  /** The answer made up for a client when nothing usable is cached. */
  const SYNTHETIC_SYNCING: PayloadStatus := PayloadStatus(Syncing, None, None)

  datatype Forkchoice = Forkchoice(head: Hash, safe: Hash, finalized: Hash)

  datatype Fork = Base | Altair | Bellatrix | Capella | Deneb | Electra | Fulu

  datatype PayloadAttributes =
    | AttributesV1(timestamp: U64, prevRandao: Hash, feeRecipient: Address)
    | AttributesV2(timestamp: U64, prevRandao: Hash, feeRecipient: Address, withdrawals: seq<Withdrawal>)
    | AttributesV3(timestamp: U64, prevRandao: Hash, feeRecipient: Address, withdrawals: seq<Withdrawal>,
                   parentBeaconBlockRoot: Hash)

  datatype PayloadVariant = BellatrixPayload | CapellaPayload | DenebPayload | ElectraPayload | FuluPayload

  datatype ExecutionPayload = ExecutionPayload(
    variant: PayloadVariant,
    parentHash: Hash,
    feeRecipient: Address,
    stateRoot: Hash,
    prevRandao: Hash,
    blockNumber: U64,
    gasLimit: U64,
    gasUsed: U64,
    timestamp: U64,
    baseFeePerGas: U256,
    blockHash: Hash,
    withdrawals: seq<Withdrawal>)

  /** What is sent to the engine, by fork. */
  datatype NewPayloadRequest =
    | BellatrixRequest(payload: ExecutionPayload)
    | CapellaRequest(payload: ExecutionPayload)
    | DenebRequest(payload: ExecutionPayload, versionedHashes: seq<Hash>, parentBeaconBlockRoot: Hash)
    | ElectraRequest(payload: ExecutionPayload, versionedHashes: seq<Hash>, parentBeaconBlockRoot: Hash,
                     executionRequests: nat)

  datatype Matching = Exact | Loose | HeadOnly

  /**
   * Start-up settings, the genesis time and fork schedule derived from the network, and the three
   * checks this model does not look into: computing a block hash, verifying one, and verifying
   * versioned hashes.
   */
  datatype Config = Config(
    matching: Matching,
    fcuCacheSize: nat,
    newPayloadCacheSize: nat,
    justifiedBlockCacheSize: nat,
    finalizedBlockCacheSize: nat,
    payloadBuilderCacheSize: nat,
    fcuWaitMillis: nat,
    newPayloadWaitMillis: nat,
    newPayloadWaitCutoff: U64,
    genesisTime: U64,
    secondsPerSlot: U64,
    forkAtSlot: nat -> Fork,
    blockHashOf: (ExecutionPayload, Option<Hash>) -> Hash,
    blockHashVerifies: NewPayloadRequest -> bool,
    versionedHashesVerify: NewPayloadRequest -> bool)

  /** Every size that is used must be non-zero for start-up to succeed. */
  predicate Startable(cfg: Config) {
    && cfg.fcuCacheSize != 0
    && cfg.newPayloadCacheSize != 0
    && cfg.justifiedBlockCacheSize != 0
    && cfg.payloadBuilderCacheSize != 0
  }

  type Settings = cfg: Config | Startable(cfg) ghost witness DEFAULT_SETTINGS

  const DEFAULT_SETTINGS: Config :=
    Config(Loose, 64, 64, 4, 4, 8, 1000, 2000, 64, 0, 12,
           _ => Electra, (payload: ExecutionPayload, root: Option<Hash>) => 0,
           (request: NewPayloadRequest) => true, (request: NewPayloadRequest) => true)

  function TimestampToSlot(cfg: Config, timestamp: U64): Option<nat> {
    if timestamp < cfg.genesisTime || cfg.secondsPerSlot == 0 then None
    else Some((timestamp - cfg.genesisTime) / cfg.secondsPerSlot)
  }

  // ----- what the definitions above amount to ----------------------------------------------

  /** Definite are the engine's VALID, INVALID and INVALID_BLOCK_HASH; ACCEPTED and SYNCING are not. */
  lemma {:induction false} DefiniteVerdicts(status: PayloadStatus)
    ensures IsDefinite(status) <==> status.verdict in {Valid, Invalid, InvalidBlockHash}
    ensures !IsDefinite(status) <==> status.verdict in {Accepted, Syncing}
  {
  }

  /** Slots are counted from the genesis time, each `secondsPerSlot` long. */
  lemma {:induction false} SlotOfTimestamp(cfg: Config, slot: nat, offset: nat)
    requires offset < cfg.secondsPerSlot && cfg.genesisTime + cfg.secondsPerSlot * slot + offset < U64_LIMIT
    ensures TimestampToSlot(cfg, cfg.genesisTime + cfg.secondsPerSlot * slot + offset) == Some(slot)
  {
    DivUnique(cfg.secondsPerSlot * slot + offset, cfg.secondsPerSlot, slot, offset);
  }

  lemma {:induction false} NoSlotExactlyWhen(cfg: Config, timestamp: U64)
    ensures TimestampToSlot(cfg, timestamp).None? <==> timestamp < cfg.genesisTime || cfg.secondsPerSlot == 0
  {
  }
}
