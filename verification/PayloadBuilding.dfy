/**
 * The dummy payload builder: a 64-bit identifier counter and three caches that evict independently.
 * `Builder` is its state as a value; the class `PayloadBuilder` updates that state in place.
 */
module PayloadBuilding {
  import opened Types
  import opened PayloadIds
  import opened BaseFee
  import Lru

  /** What is remembered of a payload seen on the canonical chain. */
  datatype PayloadInfo = PayloadInfo(
    blockNumber: U64, stateRoot: Hash, baseFeePerGas: U256, gasUsed: U64, gasLimit: U64)

  function InfoOf(payload: ExecutionPayload): PayloadInfo {
    PayloadInfo(payload.blockNumber, payload.stateRoot, payload.baseFeePerGas, payload.gasUsed, payload.gasLimit)
  }

  type Key = (Hash, PayloadAttributes)

  datatype Builder = Builder(
    nextPayloadId: U64,
    attributes: Lru.Cache<Key, PayloadId>,
    info: Lru.Cache<Hash, PayloadInfo>,
    payloads: Lru.Cache<PayloadId, ExecutionPayload>)

  function NewBuilder(cacheSize: nat): Builder {
    Builder(0, Lru.Empty(cacheSize), Lru.Empty(cacheSize), Lru.Empty(cacheSize))
  }

  datatype Rejection = InvalidTimestamp | UnknownParent | NoWithdrawals | FuluNotSupported | InvalidFork

  /** `Panicked` is the division by a zero gas target inside the fee computation. */
  datatype Registration = Registered(id: PayloadId) | Rejected(reason: Rejection) | Panicked

  /** A record of one successful build. */
  datatype Build = Build(key: Key, parentInfo: PayloadInfo, id: PayloadId, payload: ExecutionPayload)

  const GAS_LIMIT: U64 := 30_000_000

  function RootOf(attributes: PayloadAttributes): Option<Hash> {
    if attributes.AttributesV3? then Some(attributes.parentBeaconBlockRoot) else None
  }

  datatype Assembly = Assembled(payload: ExecutionPayload) | Failed(reason: Rejection)

  /** The payload for a fork, before its own hash is filled in. */
  function Assemble(cfg: Config, slot: nat, key: Key, parent: PayloadInfo, fee: U256): Assembly {
    var attributes := key.1;
    var make := (variant: PayloadVariant, withdrawals: seq<Withdrawal>) =>
                  ExecutionPayload(variant, key.0, attributes.feeRecipient, parent.stateRoot, attributes.prevRandao,
                                   (parent.blockNumber + 1) % U64_LIMIT, GAS_LIMIT, 0, attributes.timestamp, fee, 0,
                                   withdrawals);
    match cfg.forkAtSlot(slot)
    case Bellatrix => Assembled(make(BellatrixPayload, []))
    case Capella => if attributes.AttributesV1? then Failed(NoWithdrawals)
        else Assembled(make(CapellaPayload, attributes.withdrawals))
    case Deneb => if attributes.AttributesV1? then Failed(NoWithdrawals)
        else Assembled(make(DenebPayload, attributes.withdrawals))
    case Electra => if attributes.AttributesV1? then Failed(NoWithdrawals)
        else Assembled(make(ElectraPayload, attributes.withdrawals))
    case Fulu => Failed(FuluNotSupported)
    case Base => Failed(InvalidFork)
    case Altair => Failed(InvalidFork)
  }

  function Sealed(cfg: Config, payload: ExecutionPayload, root: Option<Hash>): ExecutionPayload {
    payload.(blockHash := cfg.blockHashOf(payload, root))
  }

  /** The new state, the answer, and the build that took place, if one did. */
  datatype Registering = Registering(builder: Builder, answer: Registration, build: Option<Build>)

  function Register(cfg: Config, b: Builder, key: Key): Registering {
    match TimestampToSlot(cfg, key.1.timestamp)
    case None => Registering(b, Rejected(InvalidTimestamp), None)
    case Some(slot) =>
      match Lru.Peek(b.attributes, key)
      case Some(id) => Registering(b.(attributes := Lru.Touch(b.attributes, key)), Registered(id), None)
      case None =>
        match Lru.Peek(b.info, key.0)
        case None => Registering(b, Rejected(UnknownParent), None)
        case Some(parent) =>
          var seen := b.(info := Lru.Touch(b.info, key.0));
          match ExpectedBaseFeePerGas(parent.baseFeePerGas, parent.gasUsed, parent.gasLimit)
          case None => Registering(seen, Panicked, None)
          case Some(fee) =>
            match Assemble(cfg, slot, key, parent, fee)
            case Failed(reason) => Registering(seen, Rejected(reason), None)
            case Assembled(draft) =>
              var id := ToBeBytes(b.nextPayloadId);
              var payload := Sealed(cfg, draft, RootOf(key.1));
              Registering(
                Builder((b.nextPayloadId + 1) % U64_LIMIT,
                        Lru.Put(b.attributes, key, id),
                        seen.info,
                        Lru.Put(b.payloads, id, payload)),
                Registered(id),
                Some(Build(key, parent, id, payload)))
  }

  function LookUp(b: Builder, key: Key): (Builder, Option<PayloadId>) {
    (b.(attributes := Lru.Touch(b.attributes, key)), Lru.Peek(b.attributes, key))
  }

  /** The engine called the payload invalid, so nothing may be built on it. */
  predicate Dismissed(verdict: Verdict) {
    verdict.Invalid? || verdict.InvalidBlockHash?
  }

  function Record(b: Builder, payload: ExecutionPayload): Builder {
    b.(info := Lru.GetOrInsert(b.info, payload.blockHash, InfoOf(payload)))
  }

  function Fetch(b: Builder, id: PayloadId): (Builder, Option<ExecutionPayload>) {
    (b.(payloads := Lru.Touch(b.payloads, id)), Lru.Peek(b.payloads, id))
  }

  // ----- what a build is ----------------------------------------------------------

  function VariantOf(fork: Fork): Option<PayloadVariant> {
    match fork
    case Bellatrix => Some(BellatrixPayload)
    case Capella => Some(CapellaPayload)
    case Deneb => Some(DenebPayload)
    case Electra => Some(ElectraPayload)
    case _ => None
  }

  /** The payload answers its key: every field a consensus client checks against its own attributes. */
  ghost predicate Corresponds(cfg: Config, build: Build) {
    var p, parent, attributes := build.payload, build.parentInfo, build.key.1;
    && p.parentHash == build.key.0
    && p.timestamp == attributes.timestamp
    && p.feeRecipient == attributes.feeRecipient
    && p.prevRandao == attributes.prevRandao
    && p.blockNumber == (parent.blockNumber + 1) % U64_LIMIT
    && p.stateRoot == parent.stateRoot
    && p.gasUsed == 0 && p.gasLimit == 30_000_000
    && ExpectedBaseFeePerGas(parent.baseFeePerGas, parent.gasUsed, parent.gasLimit) == Some(p.baseFeePerGas)
    && TimestampToSlot(cfg, p.timestamp).Some?
    && VariantOf(cfg.forkAtSlot(TimestampToSlot(cfg, p.timestamp).value)) == Some(p.variant)
    && (p.variant.BellatrixPayload? ==> p.withdrawals == [])
    && (!p.variant.BellatrixPayload? ==> !attributes.AttributesV1? && p.withdrawals == attributes.withdrawals)
    && (var root := if attributes.AttributesV3? then Some(attributes.parentBeaconBlockRoot) else None;
        p.blockHash == cfg.blockHashOf(p.(blockHash := 0), root))
  }

  /** `info` describes a payload with this hash that is among those `seen`. */
  ghost predicate Vouched(hash: Hash, info: PayloadInfo, seen: set<ExecutionPayload>) {
    exists p :: p in seen && p.blockHash == hash && InfoOf(p) == info
  }

  ghost predicate IssuedFor(builds: seq<Build>, key: Key, id: PayloadId) {
    exists i :: 0 <= i < |builds| && builds[i].key == key && builds[i].id == id
  }

  ghost predicate StoredAs(builds: seq<Build>, id: PayloadId, payload: ExecutionPayload) {
    exists i :: 0 <= i < |builds| && builds[i].id == id && builds[i].payload == payload
  }

  ghost predicate CachesWellFormed(b: Builder) {
    Lru.WellFormed(b.attributes) && Lru.WellFormed(b.info) && Lru.WellFormed(b.payloads)
  }

  /** Counter and builds agree: the n-th build took the n-th identifier, counting modulo 2^64. */
  ghost predicate Numbered(b: Builder, builds: seq<Build>) {
    && b.nextPayloadId == |builds| % U64_LIMIT
    && (forall i {:trigger builds[i]} :: 0 <= i < |builds| ==> builds[i].id == ToBeBytes(i % U64_LIMIT))
  }

  ghost predicate Sourced(cfg: Config, builds: seq<Build>, seen: set<ExecutionPayload>) {
    forall i {:trigger builds[i]} :: 0 <= i < |builds| ==>
      Corresponds(cfg, builds[i]) && Vouched(builds[i].key.0, builds[i].parentInfo, seen)
  }

  ghost predicate Consistent(cfg: Config, b: Builder, builds: seq<Build>, seen: set<ExecutionPayload>) {
    && CachesWellFormed(b)
    && Numbered(b, builds)
    && Sourced(cfg, builds, seen)
    && (forall key {:trigger Lru.Peek(b.attributes, key)} :: Lru.Contains(b.attributes, key) ==>
        IssuedFor(builds, key, Lru.Peek(b.attributes, key).value))
    && (forall id {:trigger Lru.Peek(b.payloads, id)} :: Lru.Contains(b.payloads, id) ==>
        StoredAs(builds, id, Lru.Peek(b.payloads, id).value))
    && (forall hash {:trigger Lru.Peek(b.info, hash)} :: Lru.Contains(b.info, hash) ==>
        Vouched(hash, Lru.Peek(b.info, hash).value, seen))
  }

  function Extended(builds: seq<Build>, build: Option<Build>): seq<Build> {
    if build.Some? then builds + [build.value] else builds
  }

  // ----- every operation keeps the builder consistent --------------------------------

  lemma {:induction false} NewIsConsistent(cfg: Config, cacheSize: nat)
    requires cacheSize > 0
    ensures Consistent(cfg, NewBuilder(cacheSize), [], {})
  {
  }

  lemma {:induction false} RegisterKeeps(cfg: Config, b: Builder, key: Key, builds: seq<Build>,
      seen: set<ExecutionPayload>)
    requires Consistent(cfg, b, builds, seen)
    ensures var r := Register(cfg, b, key); Consistent(cfg, r.builder, Extended(builds, r.build), seen)
  {
    Lru.TouchFacts(b.attributes, key);
    Lru.TouchFacts(b.info, key.0);
    var r := Register(cfg, b, key);
    if r.build.Some? {
      BuildCorresponds(cfg, b, key);
      BuildKeeps(cfg, b, r.builder, r.build.value, builds, seen);
    }
  }

  lemma {:induction false} BuildKeeps(cfg: Config, b: Builder, after: Builder, build: Build, builds: seq<Build>,
      seen: set<ExecutionPayload>)
    requires Consistent(cfg, b, builds, seen) && Corresponds(cfg, build) && build.id == ToBeBytes(b.nextPayloadId)
    requires Lru.Peek(b.info, build.key.0) == Some(build.parentInfo)
    requires after == Builder((b.nextPayloadId + 1) % U64_LIMIT, Lru.Put(b.attributes, build.key, build.id),
                              Lru.Touch(b.info, build.key.0), Lru.Put(b.payloads, build.id, build.payload))
    ensures Consistent(cfg, after, builds + [build], seen)
  {
    var more := builds + [build];
    Lru.TouchFacts(b.info, build.key.0);
    Lru.PutFacts(b.attributes, build.key, build.id);
    Lru.PutFacts(b.payloads, build.id, build.payload);
    NumberingGrows(b.nextPayloadId, builds, build);
    AttributesStayIssued(b.attributes, builds, build);
    PayloadsStayStored(b.payloads, builds, build);
    assert Sourced(cfg, more, seen) by {
      assert Vouched(build.key.0, build.parentInfo, seen);
    }
  }

  lemma {:induction false} AttributesStayIssued(cache: Lru.Cache<Key, PayloadId>, builds: seq<Build>, build: Build)
    requires Lru.WellFormed(cache)
    requires forall key {:trigger Lru.Peek(cache, key)} :: Lru.Contains(cache, key) ==>
             IssuedFor(builds, key, Lru.Peek(cache, key).value)
    ensures var after := Lru.Put(cache, build.key, build.id);
            forall key {:trigger Lru.Peek(after, key)} :: Lru.Contains(after, key) ==>
                IssuedFor(builds + [build], key, Lru.Peek(after, key).value)
  {
    var after := Lru.Put(cache, build.key, build.id);
    Lru.PutFacts(cache, build.key, build.id);
    BuildsGrow(builds, build);
    forall key | Lru.Contains(after, key) ensures IssuedFor(builds + [build], key, Lru.Peek(after, key).value) {
      if key != build.key {
        assert IssuedFor(builds, key, Lru.Peek(cache, key).value);
      }
    }
  }

  lemma {:induction false} PayloadsStayStored(cache: Lru.Cache<PayloadId, ExecutionPayload>, builds: seq<Build>,
      build: Build)
    requires Lru.WellFormed(cache)
    requires forall id {:trigger Lru.Peek(cache, id)} :: Lru.Contains(cache, id) ==>
             StoredAs(builds, id, Lru.Peek(cache, id).value)
    ensures var after := Lru.Put(cache, build.id, build.payload);
            forall id {:trigger Lru.Peek(after, id)} :: Lru.Contains(after, id) ==>
                StoredAs(builds + [build], id, Lru.Peek(after, id).value)
  {
    var after := Lru.Put(cache, build.id, build.payload);
    Lru.PutFacts(cache, build.id, build.payload);
    BuildsGrow(builds, build);
    forall id | Lru.Contains(after, id) ensures StoredAs(builds + [build], id, Lru.Peek(after, id).value) {
      if id != build.id {
        assert StoredAs(builds, id, Lru.Peek(cache, id).value);
      }
    }
  }

  lemma {:induction false} BuildCorresponds(cfg: Config, b: Builder, key: Key)
    requires Register(cfg, b, key).build.Some?
    ensures var build := Register(cfg, b, key).build.value;
            && Corresponds(cfg, build)
            && build.key == key
            && build.id == ToBeBytes(b.nextPayloadId)
            && Lru.Peek(b.info, key.0) == Some(build.parentInfo)
            && !Lru.Contains(b.attributes, key)
  {
    var slot := TimestampToSlot(cfg, key.1.timestamp).value;
    var parent := Lru.Peek(b.info, key.0).value;
    var fee := ExpectedBaseFeePerGas(parent.baseFeePerGas, parent.gasUsed, parent.gasLimit).value;
    var draft := Assemble(cfg, slot, key, parent, fee).payload;
    assert Sealed(cfg, draft, RootOf(key.1)).(blockHash := 0) == draft;
  }

  lemma {:induction false} NumberingGrows(next: U64, builds: seq<Build>, build: Build)
    requires next == |builds| % U64_LIMIT && build.id == ToBeBytes(next)
    requires forall i {:trigger builds[i]} :: 0 <= i < |builds| ==> builds[i].id == ToBeBytes(i % U64_LIMIT)
    ensures (next + 1) % U64_LIMIT == (|builds| + 1) % U64_LIMIT
    ensures var more := builds + [build];
            forall i {:trigger more[i]} :: 0 <= i < |more| ==> more[i].id == ToBeBytes(i % U64_LIMIT)
  {
  }

  lemma {:induction false} BuildsGrow(builds: seq<Build>, build: Build)
    ensures IssuedFor(builds + [build], build.key, build.id)
    ensures StoredAs(builds + [build], build.id, build.payload)
    ensures forall key, id :: IssuedFor(builds, key, id) ==> IssuedFor(builds + [build], key, id)
    ensures forall id, payload :: StoredAs(builds, id, payload) ==> StoredAs(builds + [build], id, payload)
  {
    var more := builds + [build];
    assert more[|builds|] == build;
    forall key, id | IssuedFor(builds, key, id) ensures IssuedFor(more, key, id) {
      var i :| 0 <= i < |builds| && builds[i].key == key && builds[i].id == id;
      assert more[i] == builds[i];
    }
    forall id, payload | StoredAs(builds, id, payload) ensures StoredAs(more, id, payload) {
      var i :| 0 <= i < |builds| && builds[i].id == id && builds[i].payload == payload;
      assert more[i] == builds[i];
    }
  }

  lemma {:induction false} LookUpKeeps(cfg: Config, b: Builder, key: Key, builds: seq<Build>,
      seen: set<ExecutionPayload>)
    requires Consistent(cfg, b, builds, seen)
    ensures Consistent(cfg, LookUp(b, key).0, builds, seen)
  {
    Lru.TouchFacts(b.attributes, key);
  }

  lemma {:induction false} FetchKeeps(cfg: Config, b: Builder, id: PayloadId, builds: seq<Build>,
      seen: set<ExecutionPayload>)
    requires Consistent(cfg, b, builds, seen)
    ensures Consistent(cfg, Fetch(b, id).0, builds, seen)
  {
    Lru.TouchFacts(b.payloads, id);
  }

  lemma {:induction false} SeenGrows(cfg: Config, b: Builder, builds: seq<Build>, seen: set<ExecutionPayload>,
      more: set<ExecutionPayload>)
    requires Consistent(cfg, b, builds, seen) && seen <= more
    ensures Consistent(cfg, b, builds, more)
  {
    forall hash, info | Vouched(hash, info, seen) ensures Vouched(hash, info, more) {
      var p :| p in seen && p.blockHash == hash && InfoOf(p) == info;
      assert p in more;
    }
  }

  lemma {:induction false} RecordKeeps(cfg: Config, b: Builder, payload: ExecutionPayload, builds: seq<Build>,
      seen: set<ExecutionPayload>)
    requires Consistent(cfg, b, builds, seen) && payload in seen
    ensures Consistent(cfg, Record(b, payload), builds, seen)
  {
    Lru.GetOrInsertFacts(b.info, payload.blockHash, InfoOf(payload));
    assert Vouched(payload.blockHash, InfoOf(payload), seen);
  }

  // ----- what consistency gives -----------------------------------------------------

  lemma {:induction false} SameCounter(m: U64, n: U64, id1: PayloadId, id2: PayloadId)
    requires id1 == ToBeBytes(m) && id2 == ToBeBytes(n)
    ensures id1 == id2 <==> m == n
    ensures FromBeBytes(id1) == m && FromBeBytes(id2) == n
  {
    Injective(m, n);
    RoundTrip(m);
    RoundTrip(n);
  }

  /** Identifiers repeat exactly when 2^64 builds lie between them. */
  lemma {:induction false} IdsRepeatOnlyAfterWrap(b: Builder, builds: seq<Build>, i: nat, j: nat)
    requires Numbered(b, builds) && i < |builds| && j < |builds|
    ensures builds[i].id == builds[j].id <==> i % U64_LIMIT == j % U64_LIMIT
    ensures |builds| <= U64_LIMIT ==> (builds[i].id == builds[j].id <==> i == j)
    ensures |builds| <= U64_LIMIT && i < j ==> FromBeBytes(builds[i].id) < FromBeBytes(builds[j].id)
  {
    var m: U64, n: U64 := i % U64_LIMIT, j % U64_LIMIT;
    SameCounter(m, n, builds[i].id, builds[j].id);
    if |builds| <= U64_LIMIT {
      SmallModulus(i);
      SmallModulus(j);
    }
  }

  lemma {:induction false} SmallModulus(i: nat)
    requires i < U64_LIMIT
    ensures i % U64_LIMIT == i
  {
  }

  /** Before the counter wraps, every resident identifier lies below the next one. */
  lemma {:induction false} ResidentIdsBelowNext(cfg: Config, b: Builder, builds: seq<Build>,
      seen: set<ExecutionPayload>)
    requires Consistent(cfg, b, builds, seen) && |builds| < U64_LIMIT
    ensures forall key :: Lru.Contains(b.attributes, key) ==>
            FromBeBytes(Lru.Peek(b.attributes, key).value) < b.nextPayloadId
    ensures forall id :: Lru.Contains(b.payloads, id) ==> FromBeBytes(id) < b.nextPayloadId
  {
    forall key | Lru.Contains(b.attributes, key)
      ensures FromBeBytes(Lru.Peek(b.attributes, key).value) < b.nextPayloadId
    {
      var id := Lru.Peek(b.attributes, key).value;
      var i :| 0 <= i < |builds| && builds[i].key == key && builds[i].id == id;
      IdBelowNext(b, builds, i);
    }
    forall id | Lru.Contains(b.payloads, id) ensures FromBeBytes(id) < b.nextPayloadId {
      var payload := Lru.Peek(b.payloads, id).value;
      var i :| 0 <= i < |builds| && builds[i].id == id && builds[i].payload == payload;
      IdBelowNext(b, builds, i);
    }
  }

  lemma {:induction false} IdBelowNext(b: Builder, builds: seq<Build>, i: nat)
    requires Numbered(b, builds) && |builds| < U64_LIMIT && i < |builds|
    ensures FromBeBytes(builds[i].id) < b.nextPayloadId
  {
    assert i % U64_LIMIT == i && b.nextPayloadId == |builds|;
    RoundTrip(i);
  }

  /** Two resident keys never share an identifier. */
  lemma {:induction false} AttributesInjective(cfg: Config, b: Builder, builds: seq<Build>,
      seen: set<ExecutionPayload>, k1: Key, k2: Key)
    requires Consistent(cfg, b, builds, seen) && |builds| <= U64_LIMIT
    requires Lru.Contains(b.attributes, k1) && Lru.Contains(b.attributes, k2)
    ensures Lru.Peek(b.attributes, k1) == Lru.Peek(b.attributes, k2) <==> k1 == k2
  {
    var id1, id2 := Lru.Peek(b.attributes, k1).value, Lru.Peek(b.attributes, k2).value;
    var i :| 0 <= i < |builds| && builds[i].key == k1 && builds[i].id == id1;
    var j :| 0 <= j < |builds| && builds[j].key == k2 && builds[j].id == id2;
    IdsRepeatOnlyAfterWrap(b, builds, i, j);
  }

  /** Whoever holds the identifier of a resident key and finds its payload has that key's own payload. */
  lemma {:induction false} StoredPayloadCorresponds(cfg: Config, b: Builder, builds: seq<Build>,
      seen: set<ExecutionPayload>, key: Key)
    returns (build: Build)
    requires Consistent(cfg, b, builds, seen) && |builds| <= U64_LIMIT
    requires Lru.Contains(b.attributes, key) && Lru.Contains(b.payloads, Lru.Peek(b.attributes, key).value)
    ensures build in builds && build.key == key && build.id == Lru.Peek(b.attributes, key).value
    ensures Lru.Peek(b.payloads, build.id) == Some(build.payload)
    ensures Corresponds(cfg, build) && Vouched(key.0, build.parentInfo, seen)
  {
    var id := Lru.Peek(b.attributes, key).value;
    var payload := Lru.Peek(b.payloads, id).value;
    var i :| 0 <= i < |builds| && builds[i].key == key && builds[i].id == id;
    var j :| 0 <= j < |builds| && builds[j].id == id && builds[j].payload == payload;
    IdsRepeatOnlyAfterWrap(b, builds, i, j);
    build := builds[i];
  }

  /** No Fulu payload is ever stored, so answering a fetch cannot reach the panic for one. */
  lemma {:induction false} NeverFulu(cfg: Config, b: Builder, builds: seq<Build>, seen: set<ExecutionPayload>,
      id: PayloadId)
    requires Consistent(cfg, b, builds, seen) && Lru.Contains(b.payloads, id)
    ensures !Lru.Peek(b.payloads, id).value.variant.FuluPayload?
  {
    var payload := Lru.Peek(b.payloads, id).value;
    var i :| 0 <= i < |builds| && builds[i].id == id && builds[i].payload == payload;
    assert Corresponds(cfg, builds[i]);
  }

  /** A request that is refused or panics consumes no identifier and loses nothing. */
  lemma {:induction false} FailureLeavesNothing(cfg: Config, b: Builder, key: Key)
    requires CachesWellFormed(b)
    requires !Register(cfg, b, key).answer.Registered?
    ensures var after := Register(cfg, b, key).builder;
            && after.nextPayloadId == b.nextPayloadId
            && after.attributes == b.attributes && after.payloads == b.payloads
            && (forall hash :: Lru.Peek(after.info, hash) == Lru.Peek(b.info, hash))
  {
    Lru.TouchFacts(b.info, key.0);
  }

  /** Exactly when a request is answered with an identifier, for any builder state. */
  lemma {:induction false} RegistersExactlyWhen(cfg: Config, b: Builder, key: Key)
    ensures Register(cfg, b, key).answer.Registered? <==>
            && TimestampToSlot(cfg, key.1.timestamp).Some?
            && (|| Lru.Contains(b.attributes, key)
                || (&& Lru.Contains(b.info, key.0)
                    && (var parent := Lru.Peek(b.info, key.0).value; parent.gasLimit >= 2 || parent.gasUsed == 0)
                    && (var fork := cfg.forkAtSlot(TimestampToSlot(cfg, key.1.timestamp).value);
                        VariantOf(fork).Some? && (fork.Bellatrix? || !key.1.AttributesV1?))))
    ensures Register(cfg, b, key).answer.Panicked? <==>
            && TimestampToSlot(cfg, key.1.timestamp).Some?
            && !Lru.Contains(b.attributes, key)
            && Lru.Contains(b.info, key.0)
            && (var parent := Lru.Peek(b.info, key.0).value; parent.gasLimit < 2 && parent.gasUsed != 0)
  {
  }

  /** The description has these five figures of the payload. */
  predicate Describes(info: PayloadInfo, payload: ExecutionPayload) {
    && info.blockNumber == payload.blockNumber
    && info.stateRoot == payload.stateRoot
    && info.baseFeePerGas == payload.baseFeePerGas
    && info.gasUsed == payload.gasUsed
    && info.gasLimit == payload.gasLimit
  }

  /** Recording a payload keeps the first description of its hash, and changes no other that stays. */
  lemma {:induction false} FirstInfoIsKept(b: Builder, payload: ExecutionPayload)
    requires CachesWellFormed(b)
    ensures var before, after := b.info, Record(b, payload).info;
            && Lru.Contains(after, payload.blockHash)
            && (if Lru.Contains(before, payload.blockHash) then
                  Lru.Peek(after, payload.blockHash) == Lru.Peek(before, payload.blockHash)
                else Describes(Lru.Peek(after, payload.blockHash).value, payload))
            && (forall hash :: hash != payload.blockHash && Lru.Contains(after, hash) ==>
                Lru.Peek(after, hash) == Lru.Peek(before, hash))
  {
    Lru.GetOrInsertFacts(b.info, payload.blockHash, InfoOf(payload));
  }

  /**
   * On any ordinary parent the fee of a built payload is the unbounded EIP-1559 rule, and never zero
   * from a positive fee.
   */
  lemma {:induction false} BuiltFeeFollowsRule(cfg: Config, build: Build)
    requires Corresponds(cfg, build)
    requires build.parentInfo.gasLimit >= 2 && build.parentInfo.baseFeePerGas < FEE_CEILING
    ensures var parent := build.parentInfo;
            && build.payload.baseFeePerGas == NextFee(parent.baseFeePerGas, parent.gasUsed, parent.gasLimit / 2)
            && (parent.baseFeePerGas > 0 ==> build.payload.baseFeePerGas > 0)
  {
    var parent := build.parentInfo;
    var target := parent.gasLimit / 2;
    MachineRefinesRule(parent.baseFeePerGas, parent.gasUsed, parent.gasLimit);
    if parent.gasUsed < target {
      ChangeAtMostEighth(parent.baseFeePerGas, target - parent.gasUsed, target);
    }
  }

  // ----- the builder as the program holds it --------------------------------------------

  class PayloadBuilder {
    var nextPayloadId: U64
    var payloadAttributes: Lru.Cache<Key, PayloadId>
    var payloadInfo: Lru.Cache<Hash, PayloadInfo>
    var payloads: Lru.Cache<PayloadId, ExecutionPayload>

    function Model(): Builder
      reads this
    {
      Builder(nextPayloadId, payloadAttributes, payloadInfo, payloads)
    }

    constructor (cacheSize: nat)
      ensures Model() == NewBuilder(cacheSize)
    {
      nextPayloadId := 0;
      payloadAttributes := Lru.Empty(cacheSize);
      payloadInfo := Lru.Empty(cacheSize);
      payloads := Lru.Empty(cacheSize);
    }

    method RegisterAttributes(cfg: Config, parentHash: Hash, attributes: PayloadAttributes)
      returns (answer: Registration, ghost build: Option<Build>)
      modifies this
      ensures Registering(Model(), answer, build) == Register(cfg, old(Model()), (parentHash, attributes))
    {
      build := None;
      var slot := TimestampToSlot(cfg, attributes.timestamp);
      if slot.None? {
        return Rejected(InvalidTimestamp), None;
      }
      var key := (parentHash, attributes);

      // A key that was built before keeps its identifier.
      var known := Lru.Peek(payloadAttributes, key);
      payloadAttributes := Lru.Touch(payloadAttributes, key);
      if known.Some? {
        return Registered(known.value), None;
      }

      // Only a known parent can be built upon.
      var parentInfo := Lru.Peek(payloadInfo, parentHash);
      payloadInfo := Lru.Touch(payloadInfo, parentHash);
      if parentInfo.None? {
        return Rejected(UnknownParent), None;
      }
      var parent := parentInfo.value;

      var id := ToBeBytes(nextPayloadId);
      var fee := ExpectedBaseFeePerGas(parent.baseFeePerGas, parent.gasUsed, parent.gasLimit);
      if fee.None? {
        return Panicked, None;
      }
      var assembly := Assemble(cfg, slot.value, key, parent, fee.value);
      if assembly.Failed? {
        return Rejected(assembly.reason), None;
      }
      var payload := Sealed(cfg, assembly.payload, RootOf(attributes));

      payloadAttributes := Lru.Put(payloadAttributes, key, id);
      payloads := Lru.Put(payloads, id, payload);
      nextPayloadId := (nextPayloadId + 1) % U64_LIMIT;
      answer, build := Registered(id), Some(Build(key, parent, id, payload));
    }

    method GetExistingPayloadId(parentHash: Hash, attributes: PayloadAttributes) returns (id: Option<PayloadId>)
      modifies this
      ensures (Model(), id) == LookUp(old(Model()), (parentHash, attributes))
    {
      id := Lru.Peek(payloadAttributes, (parentHash, attributes));
      payloadAttributes := Lru.Touch(payloadAttributes, (parentHash, attributes));
    }

    method RegisterCanonicalPayload(payload: ExecutionPayload, verdict: Verdict)
      modifies this
      ensures Model() == if Dismissed(verdict) then old(Model()) else Record(old(Model()), payload)
    {
      if Dismissed(verdict) {
        return;
      }
      if Lru.Contains(payloadInfo, payload.blockHash) {
        payloadInfo := Lru.Touch(payloadInfo, payload.blockHash);
      } else {
        payloadInfo := Lru.Put(payloadInfo, payload.blockHash, InfoOf(payload));
      }
    }

    method GetPayload(id: PayloadId) returns (payload: Option<ExecutionPayload>)
      modifies this
      ensures (Model(), payload) == Fetch(old(Model()), id)
    {
      payload := Lru.Peek(payloads, id);
      payloads := Lru.Touch(payloads, id);
    }
  }
}
