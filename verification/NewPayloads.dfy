/** Decoding newPayload requests, and the cache of engine verdicts on payloads. */
module NewPayloads {
  import opened Types
  import opened Json
  import Lru

  // ----- decoding --------------------------------------------------------------

  datatype Decoded = Decoded(
    version: nat,
    payload: ExecutionPayload,
    versionedHashes: Option<seq<Hash>>,
    parentBeaconBlockRoot: Option<Hash>,
    executionRequests: Option<nat>)

  datatype Extras = Extras(hashes: Option<seq<Hash>>, root: Option<Hash>, requests: Option<nat>)

  /** The parameters beside the payload, which depend on the method alone. */
  function DecodeExtras(name: Method, params: seq<Value>): Option<Extras> {
    if name == NewPayload(4) then
      if |params| != 4 || params[1].hashes.None? || params[2].hash.None?
         || params[3].requests.None? || params[3].requests.value.None? then None
      else Some(Extras(params[1].hashes, params[2].hash, params[3].requests.value))
    else if name == NewPayload(3) then
      if |params| != 3 || params[1].hashes.None? || params[2].hash.None? then None
      else Some(Extras(params[1].hashes, params[2].hash, None))
    else if |params| == 1 then Some(Extras(None, None, None))
    else None
  }

  /** The payload version is chosen by method and fork together. */
  function PayloadVersion(name: Method, fork: Fork): nat {
    if name == NewPayload(1) || fork.Bellatrix? then 1
    else if name == NewPayload(2) || fork.Capella? then 2
    else if name == NewPayload(3) || fork.Deneb? then 3
    else 4
  }

  function VariantOfVersion(version: nat): PayloadVariant {
    if version == 1 then BellatrixPayload
    else if version == 2 then CapellaPayload
    else if version == 3 then DenebPayload
    else ElectraPayload
  }

  /** The fork in force at the slot of the payload's timestamp, if there is such a slot. */
  function ForkOf(cfg: Config, payload: Value): Option<Fork> {
    if payload.timestampField.None? || payload.timestampField.value.None? then None
    else
      match TimestampToSlot(cfg, payload.timestampField.value.value)
      case None => None
      case Some(slot) => Some(cfg.forkAtSlot(slot))
  }

  /** Every failure is reported as a parse error. */
  function DecodeNewPayload(cfg: Config, request: Request): Option<Decoded> {
    if request.params.items.None? then None
    else
      var params := request.params.items.value;
      match DecodeExtras(request.name, params)
      case None => None
      case Some(extras) =>
        match ForkOf(cfg, params[0])
        case None => None
        case Some(fork) =>
          var version := PayloadVersion(request.name, fork);
          match params[0].payloadAs(version)
          case None => None
          case Some(body) =>
            Some(Decoded(version, body.(variant := VariantOfVersion(version)), extras.hashes, extras.root,
                extras.requests))
  }

  function OrEmpty<T>(value: Option<seq<T>>): seq<T> {
    if value.Some? then value.value else []
  }

  function OrZero(value: Option<nat>): nat {
    if value.Some? then value.value else 0
  }

  /** `None` is a panic: an Electra payload without requests, or a Fulu payload. */
  function RequestFromParts(payload: ExecutionPayload, hashes: Option<seq<Hash>>, root: Option<Hash>,
      requests: Option<nat>)
    : Option<NewPayloadRequest>
  {
    match payload.variant
    case BellatrixPayload => Some(BellatrixRequest(payload))
    case CapellaPayload => Some(CapellaRequest(payload))
    case DenebPayload => Some(DenebRequest(payload, OrEmpty(hashes), OrZero(root)))
    case ElectraPayload =>
      if requests.None? then None
      else Some(ElectraRequest(payload, OrEmpty(hashes), OrZero(root), requests.value))
    case FuluPayload => None
  }

  function RequestOf(d: Decoded): Option<NewPayloadRequest> {
    RequestFromParts(d.payload, d.versionedHashes, d.parentBeaconBlockRoot, d.executionRequests)
  }

  function ForkVersion(fork: Fork): nat {
    match fork
    case Bellatrix => 1
    case Capella => 2
    case Deneb => 3
    case _ => 4
  }

  function Min(a: nat, b: nat): nat {
    if a < b then a else b
  }

  /** For a routed method the older of method and fork decides, and no panic is reachable. */
  lemma {:induction false} RoutedNeverPanics(cfg: Config, request: Request)
    requires request.name.NewPayload? && Routed(request.name)
    requires DecodeNewPayload(cfg, request).Some?
    ensures var d := DecodeNewPayload(cfg, request).value;
            && d.version == Min(request.name.version, ForkVersion(ForkOf(cfg, request.params.items.value[0]).value))
            && d.payload.variant == VariantOfVersion(d.version)
            && (d.version >= 3 ==> d.versionedHashes.Some? && d.parentBeaconBlockRoot.Some?)
            && (d.version == 4 ==> d.executionRequests.Some?)
            && RequestOf(d).Some?
            && RequestOf(d).value.payload == d.payload
  {
  }

  /** Which parameters a routed newPayload must have, by its version. */
  lemma {:induction false} DecodesExactlyWhen(cfg: Config, request: Request)
    requires request.name.NewPayload? && 1 <= request.name.version <= 4
    ensures DecodeNewPayload(cfg, request).Some? <==>
            && request.params.items.Some?
            && var version, params := request.name.version, request.params.items.value;
            && |params| == (if version == 4 then 4 else if version == 3 then 3 else 1)
            && (version >= 3 ==> params[1].hashes.Some? && params[2].hash.Some?)
            && (version == 4 ==> params[3].requests.Some? && params[3].requests.value.Some?)
            && params[0].timestampField.Some? && params[0].timestampField.value.Some?
            && var timestamp := params[0].timestampField.value.value;
            && timestamp >= cfg.genesisTime && cfg.secondsPerSlot > 0
            && var fork := cfg.forkAtSlot((timestamp - cfg.genesisTime) / cfg.secondsPerSlot);
            && params[0].payloadAs(Min(version, ForkVersion(fork))).Some?
  {
  }

  /**
   * What the engine is sent, and what the hash checks are put to: the payload in every field as it was
   * read, and from version 3 on the request's own versioned hashes and beacon block root, in version 4
   * with its execution requests.
   */
  lemma {:induction false} RequestCarries(cfg: Config, request: Request)
    requires request.name.NewPayload? && 1 <= request.name.version <= 4
    requires DecodeNewPayload(cfg, request).Some?
    ensures request.params.items.Some? && |request.params.items.value| >= 1
    ensures var params := request.params.items.value;
            var timestamp := params[0].timestampField.value.value;
            var fork := cfg.forkAtSlot((timestamp - cfg.genesisTime) / cfg.secondsPerSlot);
            var version := Min(request.name.version, ForkVersion(fork));
            var body := params[0].payloadAs(version).value;
            RequestOf(DecodeNewPayload(cfg, request).value) == Some(
              if version == 1 then BellatrixRequest(body.(variant := BellatrixPayload))
              else if version == 2 then CapellaRequest(body.(variant := CapellaPayload))
              else if version == 3 then
                DenebRequest(body.(variant := DenebPayload), params[1].hashes.value, params[2].hash.value)
              else
                ElectraRequest(body.(variant := ElectraPayload), params[1].hashes.value, params[2].hash.value,
                               params[3].requests.value.value))
  {
    DecodesExactlyWhen(cfg, request);
  }

  /** The version each fork speaks; forks other than the three are counted as the latest. */
  lemma {:induction false} ForkVersions()
    ensures ForkVersion(Bellatrix) == 1 && ForkVersion(Capella) == 2 && ForkVersion(Deneb) == 3
    ensures ForkVersion(Electra) == ForkVersion(Fulu) == ForkVersion(Base) == ForkVersion(Altair) == 4
  {
  }

  /**
   * Routing is what protects: any other method panics exactly when the fork is none of Bellatrix,
   * Capella and Deneb.
   */
  lemma {:induction false} PanicsExactlyWhen(cfg: Config, request: Request)
    requires DecodeNewPayload(cfg, request).Some?
    ensures RequestOf(DecodeNewPayload(cfg, request).value).None? <==>
            && request.name !in {NewPayload(1), NewPayload(2), NewPayload(3), NewPayload(4)}
            && ForkVersion(ForkOf(cfg, request.params.items.value[0]).value) == 4
  {
  }

  // ----- the verdict cache ---------------------------------------------------------

  datatype Entry = Entry(status: PayloadStatus, blockNumber: U64)

  type PayloadCache = Lru.Cache<Hash, Entry>

  /** The highest cached block number, 0 if there is none. */
  function Highest(entries: seq<(Hash, Entry)>): U64
    decreases |entries|
  {
    if entries == [] then 0
    else
      var before, last := Highest(entries[..|entries| - 1]), entries[|entries| - 1].1.blockNumber;
      if before < last then last else before
  }

  predicate IsRecent(cfg: Config, cache: PayloadCache, blockNumber: U64) {
    blockNumber >= SaturatingSub(Highest(cache.entries), cfg.newPayloadWaitCutoff)
  }

  lemma {:induction false} HighestIsMaximum(entries: seq<(Hash, Entry)>)
    ensures forall i :: 0 <= i < |entries| ==> entries[i].1.blockNumber <= Highest(entries)
    ensures Highest(entries) == 0 || exists i :: 0 <= i < |entries| && entries[i].1.blockNumber == Highest(entries)
    decreases |entries|
  {
    if entries != [] {
      HighestIsMaximum(entries[..|entries| - 1]);
      assert entries[|entries| - 1].1.blockNumber <= Highest(entries);
    }
  }

  /** Recency is plain arithmetic: within the cutoff of every cached payload. */
  lemma {:induction false} RecencyIsArithmetic(cfg: Config, cache: PayloadCache, blockNumber: U64)
    ensures IsRecent(cfg, cache, blockNumber) <==>
            forall i :: 0 <= i < |cache.entries| ==>
                cache.entries[i].1.blockNumber <= blockNumber + cfg.newPayloadWaitCutoff
  {
    HighestIsMaximum(cache.entries);
  }

  lemma {:induction false} RecencyUpwardClosed(cfg: Config, cache: PayloadCache, lower: U64, higher: U64)
    requires IsRecent(cfg, cache, lower) && lower <= higher
    ensures IsRecent(cfg, cache, higher)
  {
  }
}
