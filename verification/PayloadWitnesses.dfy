/** Runs from the initial state that show the failing cases of newPayload and of the payload builder to be real. */
module PayloadWitnesses {
  import opened Types
  import opened PayloadBuilding
  import opened NewPayloads
  import opened Protocol
  import opened Runs
  import PayloadStability
  import Lru

  // ----- a newPayload call ---------------------------------------------------------------------------

  /** A task that has missed the payload cache awaits the engine. */
  function AskingAbout(m: Machine, tid: nat, request: NewPayloadRequest): Machine {
    m.(tasks := m.tasks[tid := Task(ControllerNewPayload(request), CallEngine, false)])
  }

  lemma {:induction false} MissSection(cfg: Config, sh: Shared, request: NewPayloadRequest)
    requires sh.newPayload.entries == []
    ensures CriticalSection(cfg, sh, ControllerNewPayload(request), ProbePayload(true, START))
            == Effect(sh, CallEngine, None)
  {
  }

  lemma {:induction false} AsksAbout(cfg: Config, steps: seq<Step>, m: Machine, k: Hash, tid: nat,
      request: NewPayloadRequest)
    returns (more: seq<Step>)
    requires Trail(cfg, steps, m, k) && Unlocked(m) && tid !in m.tasks && m.shared.newPayload.entries == []
    ensures |more| == |steps| + 3 && Trail(cfg, more, AskingAbout(m, tid, request), k)
    ensures Unlocked(AskingAbout(m, tid, request))
  {
    var job := ControllerNewPayload(request);
    TrailEnd(cfg, steps, m, k);
    more := Aside(cfg, steps, m, k, Spawn(tid, job));
    var started := Apply(cfg, m, Spawn(tid, job));
    FreeBut(m, started, tid, started.tasks[tid], NewPayloadLock);
    MissSection(cfg, m.shared, request);
    var asking;
    more, asking :=
        Turn(cfg, more, started, k, tid, job, ProbePayload(true, START), Effect(m.shared, CallEngine, None));
    Overwritten(m.tasks, tid, started.tasks[tid], asking.tasks[tid]);
    FreeBut(m, asking, tid, asking.tasks[tid], NewPayloadLock);
  }

  // ----- two controller calls for one hash -----------------------------------------------------------

  /** Any two newPayload requests for one hash can await the engine together, after six steps. */
  lemma {:induction false} OverlapIsReachable(cfg: Settings, first: NewPayloadRequest, second: NewPayloadRequest)
    returns (steps: seq<Step>, m: Machine)
    ensures Run(cfg, Initial(cfg), steps) == Some(m) && |steps| == 6
    ensures 0 in m.tasks && m.tasks[0] == Task(ControllerNewPayload(first), CallEngine, false)
    ensures 1 in m.tasks && m.tasks[1] == Task(ControllerNewPayload(second), CallEngine, false)
  {
    var start := Initial(cfg);
    steps := AsksAbout(cfg, [], start, 0, 0, first);
    steps := AsksAbout(cfg, steps, AskingAbout(start, 0, first), 0, 1, second);
    m := AskingAbout(AskingAbout(start, 0, first), 1, second);
  }

  /**
   * So for every configuration and any two such requests a run from the start stores VALID and then
   * replaces it by SYNCING.
   */
  lemma {:induction false} DowngradeHappens(cfg: Settings, first: NewPayloadRequest, second: NewPayloadRequest)
    returns (toValid: seq<Step>, valid: Machine, toSyncing: seq<Step>, syncing: Machine)
    requires first.payload.blockHash == second.payload.blockHash
    ensures Run(cfg, Initial(cfg), toValid) == Some(valid) && Run(cfg, valid, toSyncing) == Some(syncing)
    ensures Lru.Contains(valid.shared.newPayload, first.payload.blockHash)
    ensures Lru.Peek(valid.shared.newPayload, first.payload.blockHash).value.status.verdict.Valid?
    ensures Lru.Contains(syncing.shared.newPayload, first.payload.blockHash)
    ensures Lru.Peek(syncing.shared.newPayload, first.payload.blockHash).value.status.verdict.Syncing?
  {
    var steps, m := OverlapIsReachable(cfg, first, second);
    assert Reachable(cfg, m);
    toValid, valid, toSyncing, syncing := PayloadStability.OverlapCanDowngrade(cfg, m, 0, 1);
    RunConcat(cfg, Initial(cfg), steps, toValid);
    toValid := steps + toValid;
  }

  // ----- building on a parent without a gas target ---------------------------------------------------

  function Stored(sh: Shared, payload: ExecutionPayload): Shared {
    sh.(newPayload := Lru.Put(sh.newPayload, payload.blockHash, Entry(VALID, payload.blockNumber)))
  }

  function Tracked(sh: Shared, payload: ExecutionPayload): Shared {
    sh.(builder := Record(sh.builder, payload))
  }

  lemma {:induction false} StoreSection(cfg: Config, sh: Shared, request: NewPayloadRequest)
    ensures CriticalSection(cfg, sh, ControllerNewPayload(request), StorePayload(VALID))
            == Effect(Stored(sh, request.payload), RegisterPayload(VALID), None)
  {
  }

  /** The engine calls the payload VALID; that is stored. */
  lemma {:induction false} StoresValid(cfg: Config, steps: seq<Step>, m: Machine, k: Hash, tid: nat,
      request: NewPayloadRequest)
    returns (more: seq<Step>, n: Machine)
    requires Trail(cfg, steps, m, k) && Unlocked(m) && tid in m.tasks
    requires m.tasks[tid] == Task(ControllerNewPayload(request), CallEngine, false)
    ensures Trail(cfg, more, n, k) && Unlocked(n) && n.shared == Stored(m.shared, request.payload)
    ensures n.tasks == m.tasks[tid := Task(ControllerNewPayload(request), RegisterPayload(VALID), false)]
  {
    var job := ControllerNewPayload(request);
    var answered;
    more, answered := IsAnswered(cfg, steps, m, k, tid, request);
    AllFree(answered);
    StoreSection(cfg, m.shared, request);
    var effect := Effect(Stored(m.shared, request.payload), RegisterPayload(VALID), None);
    more, n := Turn(cfg, more, answered, k, tid, job, StorePayload(VALID), effect);
    Overwritten(m.tasks, tid, answered.tasks[tid], n.tasks[tid]);
    FreeBut(m, n, tid, n.tasks[tid], NewPayloadLock);
  }

  lemma {:induction false} IsAnswered(cfg: Config, steps: seq<Step>, m: Machine, k: Hash, tid: nat,
      request: NewPayloadRequest)
    returns (more: seq<Step>, n: Machine)
    requires Trail(cfg, steps, m, k) && Unlocked(m) && tid in m.tasks
    requires m.tasks[tid] == Task(ControllerNewPayload(request), CallEngine, false)
    ensures Trail(cfg, more, n, k) && Unlocked(n) && n.shared == m.shared && Apart(n.shared, k)
    ensures n.tasks == m.tasks[tid := Task(ControllerNewPayload(request), StorePayload(VALID), false)]
  {
    TrailEnd(cfg, steps, m, k);
    more := Aside(cfg, steps, m, k, Answer(tid, Some(VALID)));
    n := Apply(cfg, m, Answer(tid, Some(VALID)));
    FreeBut(m, n, tid, n.tasks[tid], NewPayloadLock);
  }

  /** The builder is told of it. */
  lemma {:induction false} TracksPayload(cfg: Config, steps: seq<Step>, m: Machine, k: Hash, tid: nat,
      request: NewPayloadRequest)
    returns (more: seq<Step>, n: Machine)
    requires Trail(cfg, steps, m, k) && Unlocked(m) && tid in m.tasks
    requires m.tasks[tid] == Task(ControllerNewPayload(request), RegisterPayload(VALID), false)
    ensures Trail(cfg, more, n, k) && Unlocked(n) && n.shared == Tracked(m.shared, request.payload)
    ensures n.tasks == m.tasks[tid := Task(ControllerNewPayload(request), Finished(StatusDone(VALID)), false)]
  {
    TrailEnd(cfg, steps, m, k);
    AllFree(m);
    more, n := Turn(cfg, steps, m, k, tid, ControllerNewPayload(request), RegisterPayload(VALID),
                    Effect(Tracked(m.shared, request.payload), Finished(StatusDone(VALID)), None));
    FreeBut(m, n, tid, n.tasks[tid], BuilderLock);
  }

  /** With such a parent known, and nothing built yet, registering attributes panics. */
  lemma {:induction false} PanicSection(cfg: Config, sh: Shared, job: Job, payload: ExecutionPayload)
    requires job.ControllerFcu? && job.fcu.head == payload.blockHash && job.attributes.Some?
    requires TimestampToSlot(cfg, job.attributes.value.timestamp).Some?
    requires payload.gasLimit < 2 && payload.gasUsed != 0
    requires sh.builder.attributes.entries == []
    requires Lru.Peek(sh.builder.info, payload.blockHash) == Some(InfoOf(payload))
    ensures var effect := CriticalSection(cfg, sh, job, Attributes(VALID));
            && effect.pc == Finished(FcuDone(VALID, BuilderPanicked))
            && effect.build.None?
            && effect.shared == sh.(builder := effect.shared.builder)
  {
  }

  /**
   * The panic is real. For every configuration, every payload with a gas limit below 2 that used gas,
   * and any attributes with a valid timestamp: the engine calls the payload VALID, and then an update
   * to it with those attributes panics.
   */
  lemma {:induction false} BuilderPanics(cfg: Settings, request: NewPayloadRequest, fcu: Forkchoice,
      attributes: PayloadAttributes)
    returns (steps: seq<Step>, m: Machine)
    requires request.payload.gasLimit < 2 && request.payload.gasUsed != 0 && fcu.head == request.payload.blockHash
    requires TimestampToSlot(cfg, attributes.timestamp).Some?
    ensures Run(cfg, Initial(cfg), steps) == Some(m)
    ensures 1 in m.tasks && m.tasks[1].job == ControllerFcu(fcu, Some(attributes))
    ensures m.tasks[1].pc == Finished(FcuDone(VALID, BuilderPanicked))
  {
    var k := fcu.finalized + 1;
    var job := ControllerFcu(fcu, Some(attributes));
    var known, updated;
    steps, known := ParentIsKnown(cfg, k, request, job);
    steps, updated := Calls(cfg, steps, known, k, 1, job);
    TrailEnd(cfg, steps, updated, k);
    PanicSection(cfg, updated.shared, job, request.payload);
    AllFree(updated);
    var effect := CriticalSection(cfg, updated.shared, job, Attributes(VALID));
    steps, m := Turn(cfg, steps, updated, k, 1, job, Attributes(VALID), effect);
  }

  lemma {:induction false} ParentIsKnown(cfg: Settings, k: Hash, request: NewPayloadRequest, job: Job)
    returns (steps: seq<Step>, m: Machine)
    requires job.ControllerFcu?
    ensures Trail(cfg, steps, m, k) && Unlocked(m) && 1 !in m.tasks
    ensures m.shared.builder.attributes.entries == []
    ensures Lru.Peek(m.shared.builder.info, request.payload.blockHash) == Some(InfoOf(request.payload))
    ensures MissesAtOnce(cfg, m.shared, job) && News(m.shared, job.fcu) && !Lru.Contains(m.shared.finalized, k)
  {
    var start, stored := Initial(cfg), Initial(cfg);
    steps := AsksAbout(cfg, [], start, k, 0, request);
    steps, stored := StoresValid(cfg, steps, AskingAbout(start, 0, request), k, 0, request);
    steps, m := TracksPayload(cfg, steps, stored, k, 0, request);
    Lru.FirstPut(cfg.payloadBuilderCacheSize, request.payload.blockHash, InfoOf(request.payload));
    MissesEmpty(cfg, m.shared, job);
  }
}
