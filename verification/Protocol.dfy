/**
 * The multiplexer as a labelled transition system. Any number of request handlers run at once; each
 * is a task with a program counter, broken at every point where the program awaits a lock, the
 * engine or a timer. The five caches are each guarded by a lock that one task at a time may hold.
 */
module Protocol {
  import opened Types
  import opened PayloadIds
  import opened PayloadBuilding
  import opened NewPayloads
  import Lru

  // ----- shared state ------------------------------------------------------------

  type FcuCache = Lru.Cache<Forkchoice, PayloadStatus>
  type HashCache = Lru.Cache<Hash, ()>

  datatype Shared = Shared(
    fcu: FcuCache,
    justified: HashCache,
    finalized: HashCache,
    newPayload: PayloadCache,
    builder: Builder)

  /** The finalized cache takes its size from the justified setting; the finalized setting is unused. */
  function InitialShared(cfg: Config): Shared {
    Shared(Lru.Empty(cfg.fcuCacheSize),
           Lru.Empty(cfg.justifiedBlockCacheSize),
           Lru.Empty(cfg.justifiedBlockCacheSize),
           Lru.Empty(cfg.newPayloadCacheSize),
           NewBuilder(cfg.payloadBuilderCacheSize))
  }

  /** The most recently used status with this head, whatever it says. */
  function FirstWithHead(entries: seq<(Forkchoice, PayloadStatus)>, head: Hash): Option<PayloadStatus> {
    if entries == [] then None
    else if entries[0].0.head == head then Some(entries[0].1)
    else FirstWithHead(entries[1..], head)
  }

  function DefiniteEnough(definiteOnly: bool, status: PayloadStatus): Option<PayloadStatus> {
    if !definiteOnly || IsDefinite(status) then Some(status) else None
  }

  // ----- tasks ---------------------------------------------------------------------

  datatype Job =
    | ControllerFcu(fcu: Forkchoice, attributes: Option<PayloadAttributes>)
    | ClientFcu(fcu: Forkchoice, attributes: Option<PayloadAttributes>)
    | ControllerNewPayload(request: NewPayloadRequest)
    | ClientNewPayload(request: NewPayloadRequest)
    | FetchPayload(id: PayloadId)

  /** Milliseconds since a waiting loop began, and how many times it has slept. */
  datatype Clock = Clock(elapsed: nat, polls: nat)

  datatype PayloadIdAnswer =
    | NotAsked
    | Given(id: PayloadId)
    | NotKnown
    | Refused(reason: Rejection)
    | BuilderPanicked

  datatype Outcome =
    | FcuDone(status: PayloadStatus, payloadId: PayloadIdAnswer)
    | StatusDone(status: PayloadStatus)
    | EngineFailed
    | BlockHashMismatch
    | VersionedHashMismatch
    | Fetched(payload: ExecutionPayload)
    | NotFound
    | Dropped

  datatype Pc =
    | Poll(at: Clock)
    | Probe(definiteOnly: bool, at: Clock)
    | ProbeJustified(definiteOnly: bool, at: Clock, existing: PayloadStatus)
    | ProbeFinalized(definiteOnly: bool, at: Clock, existing: PayloadStatus)
    | CallEngine
    | Publish(reply: PayloadStatus)
    | RecordJustified(reply: PayloadStatus)
    | RecordFinalized(reply: PayloadStatus)
    | Attributes(status: PayloadStatus)
    | CheckRecent
    | ProbePayload(definiteOnly: bool, at: Clock)
    | StorePayload(reply: PayloadStatus)
    | RegisterPayload(reply: PayloadStatus)
    | FetchFromBuilder
    | Finished(outcome: Outcome)

  datatype RawTask = Task(job: Job, pc: Pc, inside: bool)

  datatype Lock = FcuLock | JustifiedLock | FinalizedLock | NewPayloadLock | BuilderLock

  /** The lock a program counter waits for, or has just been granted. */
  function LockOf(pc: Pc): Option<Lock> {
    match pc
    case Probe(_, _) => Some(FcuLock)
    case ProbeJustified(_, _, _) => Some(JustifiedLock)
    case ProbeFinalized(_, _, _) => Some(FinalizedLock)
    case Publish(_) => Some(FcuLock)
    case RecordJustified(_) => Some(JustifiedLock)
    case RecordFinalized(_) => Some(FinalizedLock)
    case Attributes(_) => Some(BuilderLock)
    case CheckRecent => Some(NewPayloadLock)
    case ProbePayload(_, _) => Some(NewPayloadLock)
    case StorePayload(_) => Some(NewPayloadLock)
    case RegisterPayload(_) => Some(BuilderLock)
    case FetchFromBuilder => Some(BuilderLock)
    case _ => None
  }

  /** The locks kept from earlier points. A loose probe keeps the forkchoice lock until it is answered, and no other. */
  function Kept(pc: Pc): set<Lock> {
    match pc
    case ProbeJustified(_, _, _) => {FcuLock}
    case ProbeFinalized(_, _, _) => {FcuLock}
    case _ => {}
  }

  function Holds(task: Task): set<Lock> {
    Kept(task.pc) + if task.inside then {LockOf(task.pc).value} else {}
  }

  /** Which program counters belong to which handler. */
  predicate Fits(job: Job, pc: Pc) {
    (pc.Finished? && pc.outcome.Dropped?) ||
    match job
    case ControllerFcu(_, attributes) =>
      || (pc.Probe? && pc.definiteOnly) || (pc.ProbeJustified? && pc.definiteOnly)
          || (pc.ProbeFinalized? && pc.definiteOnly)
      || pc.CallEngine? || pc.Publish?
      || (pc.RecordJustified? && pc.reply.verdict.Valid?) || (pc.RecordFinalized? && pc.reply.verdict.Valid?)
      || (pc.Attributes? && attributes.Some?)
      || (pc.Finished? && (pc.outcome.FcuDone? || pc.outcome.EngineFailed?))
    case ClientFcu(_, attributes) =>
      || pc.Poll? || pc.Probe? || pc.ProbeJustified? || pc.ProbeFinalized?
      || (pc.Attributes? && attributes.Some?)
      || (pc.Finished? && pc.outcome.FcuDone?)
    case ControllerNewPayload(_) =>
      || (pc.ProbePayload? && pc.definiteOnly) || pc.CallEngine? || pc.StorePayload? || pc.RegisterPayload?
      || (pc.Finished? && (pc.outcome.StatusDone? || pc.outcome.EngineFailed?))
    case ClientNewPayload(_) =>
      || pc.CheckRecent? || pc.Poll? || pc.ProbePayload?
      || (pc.Finished?
          && (pc.outcome.StatusDone? || pc.outcome.BlockHashMismatch? || pc.outcome.VersionedHashMismatch?))
    case FetchPayload(_) =>
      || pc.FetchFromBuilder?
      || (pc.Finished? && (pc.outcome.Fetched? || pc.outcome.NotFound?))
  }

  type Task = t: RawTask | Fits(t.job, t.pc) && (t.inside ==> LockOf(t.pc).Some?)
    witness Task(FetchPayload([0, 0, 0, 0, 0, 0, 0, 0]), FetchFromBuilder, false)

  const START: Clock := Clock(0, 0)

  function Start(cfg: Config, job: Job): Task {
    match job
    case ControllerFcu(_, _) => Task(job, Probe(true, START), false)
    case ClientFcu(_, _) => Task(job, Poll(START), false)
    case ControllerNewPayload(_) => Task(job, ProbePayload(true, START), false)
    case ClientNewPayload(request) =>
      // The block hash is checked before the cache is consulted.
      Task(job, if cfg.blockHashVerifies(request) then CheckRecent else Finished(BlockHashMismatch), false)
    case FetchPayload(_) => Task(job, FetchFromBuilder, false)
  }

  // ----- critical sections -----------------------------------------------------------

  predicate IsFcu(job: Job) {
    job.ControllerFcu? || job.ClientFcu?
  }

  predicate IsNewPayload(job: Job) {
    job.ControllerNewPayload? || job.ClientNewPayload?
  }

  /** A forkchoice status is known; what remains are the payload attributes, if any were sent. */
  function AfterStatus(cfg: Config, job: Job, status: PayloadStatus): Pc
    requires IsFcu(job)
  {
    if job.attributes.None? then Finished(FcuDone(status, NotAsked))
    else if job.ControllerFcu? && TimestampToSlot(cfg, job.attributes.value.timestamp).None? then
      Finished(FcuDone(status, Refused(InvalidTimestamp)))
    else Attributes(status)
  }

  /** A forkchoice probe has been answered. */
  function AfterProbe(cfg: Config, job: Job, definiteOnly: bool, at: Clock, found: Option<PayloadStatus>): Pc
    requires IsFcu(job)
  {
    if found.Some? then AfterStatus(cfg, job, found.value)
    else if job.ControllerFcu? then CallEngine
    else if definiteOnly then Poll(Clock(at.elapsed + SLEEP_MILLIS, at.polls + 1))
    else AfterStatus(cfg, job, SYNTHETIC_SYNCING)
  }

  const SLEEP_MILLIS: nat := 50

  datatype Effect = Effect(shared: Shared, pc: Pc, build: Option<Build>)

  function Probing(cfg: Config, sh: Shared, job: Job, definiteOnly: bool, at: Clock): Effect
    requires IsFcu(job)
  {
    match cfg.matching
    case Exact =>
      var hit := Lru.Peek(sh.fcu, job.fcu);
      var found := if hit.None? then None else DefiniteEnough(definiteOnly, hit.value);
      Effect(sh.(fcu := Lru.Touch(sh.fcu, job.fcu)), AfterProbe(cfg, job, definiteOnly, at, found), None)
    case HeadOnly =>
      var hit := FirstWithHead(sh.fcu.entries, job.fcu.head);
      var found := if hit.None? then None else DefiniteEnough(definiteOnly, hit.value);
      Effect(sh, AfterProbe(cfg, job, definiteOnly, at, found), None)
    case Loose =>
      var hit := FirstWithHead(sh.fcu.entries, job.fcu.head);
      Effect(sh, if hit.None? then AfterProbe(cfg, job, definiteOnly, at, None)
                 else ProbeJustified(definiteOnly, at, hit.value), None)
  }

  /** The engine's reply is cached unless a definite verdict is already there. */
  function Publishing(cfg: Config, sh: Shared, job: Job, reply: PayloadStatus): Effect
    requires job.ControllerFcu?
  {
    var hit := Lru.Peek(sh.fcu, job.fcu);
    if hit.Some? && IsDefinite(hit.value) then
      Effect(sh.(fcu := Lru.Touch(sh.fcu, job.fcu)), AfterStatus(cfg, job, reply), None)
    else
      Effect(sh.(fcu := Lru.Put(sh.fcu, job.fcu, reply)),
             if reply.verdict.Valid? then RecordJustified(reply) else AfterStatus(cfg, job, reply), None)
  }

  function UsingAttributes(cfg: Config, sh: Shared, job: Job, status: PayloadStatus): Effect
    requires IsFcu(job) && job.attributes.Some?
  {
    var key := (job.fcu.head, job.attributes.value);
    if job.ControllerFcu? then
      var r := Register(cfg, sh.builder, key);
      var answer := match r.answer
        case Registered(id) => Given(id)
        case Rejected(reason) => Refused(reason)
        case Panicked => BuilderPanicked;
      Effect(sh.(builder := r.builder), Finished(FcuDone(status, answer)), r.build)
    else
      var (b, id) := LookUp(sh.builder, key);
      Effect(sh.(builder := b), Finished(FcuDone(status, if id.Some? then Given(id.value) else NotKnown)), None)
  }

  /** A payload probe has been answered. Before SYNCING is made up the versioned hashes are checked. */
  function AfterPayloadProbe(cfg: Config, job: Job, definiteOnly: bool, at: Clock, found: Option<PayloadStatus>): Pc
    requires IsNewPayload(job)
  {
    if found.Some? then Finished(StatusDone(found.value))
    else if job.ControllerNewPayload? then CallEngine
    else if definiteOnly then Poll(Clock(at.elapsed + SLEEP_MILLIS, at.polls + 1))
    else if cfg.versionedHashesVerify(job.request) then Finished(StatusDone(SYNTHETIC_SYNCING))
    else Finished(VersionedHashMismatch)
  }

  function CachedStatus(cache: PayloadCache, hash: Hash, definiteOnly: bool): Option<PayloadStatus> {
    var hit := Lru.Peek(cache, hash);
    if hit.None? then None else DefiniteEnough(definiteOnly, hit.value.status)
  }

  function ProbingPayload(cfg: Config, sh: Shared, job: Job, definiteOnly: bool, at: Clock): Effect
    requires IsNewPayload(job)
  {
    var hash := job.request.payload.blockHash;
    Effect(sh.(newPayload := Lru.Touch(sh.newPayload, hash)),
           AfterPayloadProbe(cfg, job, definiteOnly, at, CachedStatus(sh.newPayload, hash, definiteOnly)),
           None)
  }

  /** The verdict cache is overwritten, whatever it held. */
  function StoringPayload(sh: Shared, job: Job, reply: PayloadStatus): Effect
    requires job.ControllerNewPayload?
  {
    var payload := job.request.payload;
    Effect(
      sh.(newPayload := Lru.Put(sh.newPayload, payload.blockHash, Entry(reply, payload.blockNumber))),
      if Dismissed(reply.verdict) then Finished(StatusDone(reply)) else RegisterPayload(reply),
      None)
  }

  /** Everything a task does between being granted the lock of its program counter and its next await. */
  function CriticalSection(cfg: Config, sh: Shared, job: Job, pc: Pc): Effect
    requires Fits(job, pc) && LockOf(pc).Some?
    ensures Fits(job, CriticalSection(cfg, sh, job, pc).pc)
  {
    match pc
    case Probe(definiteOnly, at) => Probing(cfg, sh, job, definiteOnly, at)
    case ProbeJustified(definiteOnly, at, existing) =>
      Effect(sh, if Lru.Contains(sh.justified, job.fcu.safe) then ProbeFinalized(definiteOnly, at, existing)
                 else AfterProbe(cfg, job, definiteOnly, at, None), None)
    case ProbeFinalized(definiteOnly, at, existing) =>
      Effect(sh, AfterProbe(cfg, job, definiteOnly, at,
                            if Lru.Contains(sh.finalized, job.fcu.finalized) then DefiniteEnough(definiteOnly, existing)
                            else None), None)
    case Publish(reply) => Publishing(cfg, sh, job, reply)
    case RecordJustified(reply) =>
      Effect(sh.(justified := Lru.Put(sh.justified, job.fcu.safe, ())), RecordFinalized(reply), None)
    case RecordFinalized(reply) =>
      Effect(sh.(finalized := Lru.Put(sh.finalized, job.fcu.finalized, ())), AfterStatus(cfg, job, reply), None)
    case Attributes(status) => UsingAttributes(cfg, sh, job, status)
    case CheckRecent =>
      Effect(sh, if IsRecent(cfg, sh.newPayload, job.request.payload.blockNumber) then Poll(START)
                 else ProbePayload(false, START), None)
    case ProbePayload(definiteOnly, at) => ProbingPayload(cfg, sh, job, definiteOnly, at)
    case StorePayload(reply) => StoringPayload(sh, job, reply)
    case RegisterPayload(reply) =>
      Effect(sh.(builder := Record(sh.builder, job.request.payload)), Finished(StatusDone(reply)), None)
    case FetchFromBuilder =>
      var (b, payload) := Fetch(sh.builder, job.id);
      Effect(sh.(builder := b), Finished(if payload.Some? then Fetched(payload.value) else NotFound), None)
  }

  /** The clock is read at the head of a waiting loop: wait for a definite answer, or take any. */
  function AfterPoll(cfg: Config, job: Job, now: nat, polls: nat): Pc
    requires job.ClientFcu? || job.ClientNewPayload?
    ensures Fits(job, AfterPoll(cfg, job, now, polls))
  {
    var waiting := now < if job.ClientFcu? then cfg.fcuWaitMillis else cfg.newPayloadWaitMillis;
    if job.ClientFcu? then Probe(waiting, Clock(now, polls)) else ProbePayload(waiting, Clock(now, polls))
  }

  // ----- steps and runs ----------------------------------------------------------------

  /** What the engine has answered, and to what. */
  datatype Event =
    | FcuReply(fcu: Forkchoice, status: PayloadStatus)
    | PayloadReply(payload: ExecutionPayload, status: PayloadStatus)

  datatype Machine = Machine(
    shared: Shared,
    tasks: map<nat, Task>,
    history: seq<Event>,
    builds: seq<Build>)

  function Initial(cfg: Config): Machine {
    Machine(InitialShared(cfg), map[], [], [])
  }

  /**
   * `Acquire` grants the awaited lock, `Proceed` runs the critical section, `Answer` is the engine
   * replying (or failing), `Awake` reads the clock at the head of a waiting loop, and `Drop` is a
   * handler cancelled at an await because its caller went away.
   */
  datatype Step =
    | Spawn(tid: nat, job: Job)
    | Acquire(tid: nat)
    | Proceed(tid: nat)
    | Answer(tid: nat, reply: Option<PayloadStatus>)
    | Awake(tid: nat, now: nat)
    | Drop(tid: nat)

  ghost predicate Free(m: Machine, l: Lock) {
    forall tid :: tid in m.tasks ==> l !in Holds(m.tasks[tid])
  }

  ghost predicate Enabled(m: Machine, step: Step) {
    match step
    case Spawn(tid, _) => tid !in m.tasks
    case Acquire(tid) =>
      tid in m.tasks && !m.tasks[tid].inside && LockOf(m.tasks[tid].pc).Some? && Free(m, LockOf(m.tasks[tid].pc).value)
    case Proceed(tid) => tid in m.tasks && m.tasks[tid].inside
    case Answer(tid, _) => tid in m.tasks && m.tasks[tid].pc.CallEngine?
    case Awake(tid, now) => tid in m.tasks && m.tasks[tid].pc.Poll? && m.tasks[tid].pc.at.elapsed <= now
    case Drop(tid) => tid in m.tasks && !m.tasks[tid].pc.Finished?
  }

  function MoveTo(m: Machine, tid: nat, pc: Pc): Machine
    requires tid in m.tasks && Fits(m.tasks[tid].job, pc)
  {
    m.(tasks := m.tasks[tid := Task(m.tasks[tid].job, pc, false)])
  }

  function Proceeding(cfg: Config, m: Machine, tid: nat): Machine
    requires tid in m.tasks && m.tasks[tid].inside
  {
    var task := m.tasks[tid];
    var effect := CriticalSection(cfg, m.shared, task.job, task.pc);
    Machine(effect.shared, m.tasks[tid := Task(task.job, effect.pc, false)], m.history,
        Extended(m.builds, effect.build))
  }

  function Answering(m: Machine, tid: nat, reply: Option<PayloadStatus>): Machine
    requires tid in m.tasks && m.tasks[tid].pc.CallEngine?
  {
    var job := m.tasks[tid].job;
    match reply
    case None => MoveTo(m, tid, Finished(EngineFailed))
    case Some(status) =>
      if job.ControllerFcu? then
        MoveTo(m, tid, Publish(status)).(history := m.history + [FcuReply(job.fcu, status)])
      else
        MoveTo(m, tid, StorePayload(status)).(history := m.history + [PayloadReply(job.request.payload, status)])
  }

  ghost function Apply(cfg: Config, m: Machine, step: Step): Machine
    requires Enabled(m, step)
  {
    match step
    case Spawn(tid, job) => m.(tasks := m.tasks[tid := Start(cfg, job)])
    case Acquire(tid) => m.(tasks := m.tasks[tid := Task(m.tasks[tid].job, m.tasks[tid].pc, true)])
    case Proceed(tid) => Proceeding(cfg, m, tid)
    case Answer(tid, reply) => Answering(m, tid, reply)
    case Awake(tid, now) => MoveTo(m, tid, AfterPoll(cfg, m.tasks[tid].job, now, m.tasks[tid].pc.at.polls))
    case Drop(tid) => MoveTo(m, tid, Finished(Dropped))
  }

  /** Runs the steps in order; `None` if one of them is not enabled when its turn comes. */
  ghost function Run(cfg: Config, m: Machine, steps: seq<Step>): Option<Machine>
    decreases |steps|
  {
    if steps == [] then Some(m)
    else
      match Run(cfg, m, steps[..|steps| - 1])
      case None => None
      case Some(n) => if Enabled(n, steps[|steps| - 1]) then Some(Apply(cfg, n, steps[|steps| - 1])) else None
  }

  ghost predicate Reachable(cfg: Config, m: Machine) {
    exists steps :: Run(cfg, Initial(cfg), steps) == Some(m)
  }

  lemma {:induction false} RunSnoc(cfg: Config, m: Machine, steps: seq<Step>, step: Step)
    ensures var n := Run(cfg, m, steps);
            Run(cfg, m, steps + [step]) ==
              if n.Some? && Enabled(n.value, step) then Some(Apply(cfg, n.value, step)) else None
  {
    assert (steps + [step])[..|steps|] == steps;
  }

  lemma {:induction false} RunConcat(cfg: Config, m: Machine, first: seq<Step>, second: seq<Step>)
    ensures var n := Run(cfg, m, first);
            Run(cfg, m, first + second) == if n.Some? then Run(cfg, n.value, second) else None
    decreases |second|
  {
    if second == [] {
      assert first + second == first;
    } else {
      var init, last := second[..|second| - 1], second[|second| - 1];
      RunConcat(cfg, m, first, init);
      assert first + second == first + init + [last];
      RunSnoc(cfg, m, first + init, last);
    }
  }

  lemma {:induction false} ReachableExtends(cfg: Config, m: Machine, steps: seq<Step>, n: Machine)
    requires Reachable(cfg, m) && Run(cfg, m, steps) == Some(n)
    ensures Reachable(cfg, n)
  {
    var prefix :| Run(cfg, Initial(cfg), prefix) == Some(m);
    RunConcat(cfg, Initial(cfg), prefix, steps);
  }

  /** What one step does to the caches: nothing, unless it is a critical section. */
  lemma {:induction false} StepShared(cfg: Config, m: Machine, step: Step)
    requires Enabled(m, step)
    ensures !step.Proceed? ==> Apply(cfg, m, step).shared == m.shared && Apply(cfg, m, step).builds == m.builds
    ensures m.history <= Apply(cfg, m, step).history
    ensures m.tasks.Keys <= Apply(cfg, m, step).tasks.Keys
    ensures forall tid :: tid in m.tasks && tid != step.tid ==> Apply(cfg, m, step).tasks[tid] == m.tasks[tid]
    ensures forall tid :: tid in m.tasks ==> Apply(cfg, m, step).tasks[tid].job == m.tasks[tid].job
  {
  }

  /** In any order of events, every cache stays within its bound with one entry a key. */
  ghost predicate CachesOk(sh: Shared) {
    && Lru.WellFormed(sh.fcu) && Lru.WellFormed(sh.justified) && Lru.WellFormed(sh.finalized)
    && Lru.WellFormed(sh.newPayload) && CachesWellFormed(sh.builder)
  }

  ghost predicate SameCapacities(a: Shared, b: Shared) {
    && a.fcu.capacity == b.fcu.capacity
    && a.justified.capacity == b.justified.capacity
    && a.finalized.capacity == b.finalized.capacity
    && a.newPayload.capacity == b.newPayload.capacity
    && a.builder.attributes.capacity == b.builder.attributes.capacity
    && a.builder.info.capacity == b.builder.info.capacity
    && a.builder.payloads.capacity == b.builder.payloads.capacity
  }

  lemma {:induction false} SectionKeepsCaches(cfg: Config, sh: Shared, job: Job, pc: Pc)
    requires Fits(job, pc) && LockOf(pc).Some? && CachesOk(sh)
    ensures CachesOk(CriticalSection(cfg, sh, job, pc).shared)
    ensures SameCapacities(CriticalSection(cfg, sh, job, pc).shared, sh)
  {
    match pc
    case Probe(_, _) => Lru.TouchFacts(sh.fcu, job.fcu);
    case Publish(reply) =>
      Lru.TouchFacts(sh.fcu, job.fcu);
      Lru.PutFacts(sh.fcu, job.fcu, reply);
    case RecordJustified(_) => Lru.PutFacts(sh.justified, job.fcu.safe, ());
    case RecordFinalized(_) => Lru.PutFacts(sh.finalized, job.fcu.finalized, ());
    case Attributes(_) => BuilderKeepsCaches(cfg, sh.builder, (job.fcu.head, job.attributes.value));
    case ProbePayload(_, _) => Lru.TouchFacts(sh.newPayload, job.request.payload.blockHash);
    case StorePayload(reply) =>
      var payload := job.request.payload;
      Lru.PutFacts(sh.newPayload, payload.blockHash, Entry(reply, payload.blockNumber));
    case RegisterPayload(_) =>
      Lru.GetOrInsertFacts(sh.builder.info, job.request.payload.blockHash, InfoOf(job.request.payload));
    case FetchFromBuilder => Lru.TouchFacts(sh.builder.payloads, job.id);
    case _ =>
  }

  lemma {:induction false} BuilderKeepsCaches(cfg: Config, b: Builder, key: Key)
    requires CachesWellFormed(b)
    ensures var after := Register(cfg, b, key).builder;
            && CachesWellFormed(after)
            && after.attributes.capacity == b.attributes.capacity
            && after.info.capacity == b.info.capacity
            && after.payloads.capacity == b.payloads.capacity
    ensures CachesWellFormed(LookUp(b, key).0) && LookUp(b, key).0.attributes.capacity == b.attributes.capacity
  {
    Lru.TouchFacts(b.attributes, key);
    Lru.TouchFacts(b.info, key.0);
    var r := Register(cfg, b, key);
    if r.build.Some? {
      var build := r.build.value;
      Lru.PutFacts(b.attributes, key, build.id);
      Lru.PutFacts(b.payloads, build.id, build.payload);
    }
  }

  lemma {:induction false} RunKeepsCaches(cfg: Config, m: Machine, steps: seq<Step>)
    requires CachesOk(m.shared) && Run(cfg, m, steps).Some?
    ensures CachesOk(Run(cfg, m, steps).value.shared)
    ensures SameCapacities(Run(cfg, m, steps).value.shared, m.shared)
    decreases |steps|
  {
    if steps != [] {
      var init, last := steps[..|steps| - 1], steps[|steps| - 1];
      RunKeepsCaches(cfg, m, init);
      var n := Run(cfg, m, init).value;
      if last.Proceed? {
        SectionKeepsCaches(cfg, n.shared, n.tasks[last.tid].job, n.tasks[last.tid].pc);
      } else {
        StepShared(cfg, n, last);
      }
    }
  }

  lemma {:induction false} InitialCachesOk(cfg: Settings)
    ensures CachesOk(Initial(cfg).shared)
  {
  }

  lemma {:induction false} ReachableCachesOk(cfg: Settings, m: Machine)
    requires Reachable(cfg, m)
    ensures CachesOk(m.shared) && SameCapacities(m.shared, InitialShared(cfg))
    ensures m.shared.fcu.capacity == cfg.fcuCacheSize
    ensures m.shared.newPayload.capacity == cfg.newPayloadCacheSize
    ensures m.shared.justified.capacity == cfg.justifiedBlockCacheSize == m.shared.finalized.capacity
    ensures var b := m.shared.builder;
            b.attributes.capacity == b.info.capacity == b.payloads.capacity == cfg.payloadBuilderCacheSize
  {
    var steps :| Run(cfg, Initial(cfg), steps) == Some(m);
    InitialCachesOk(cfg);
    RunKeepsCaches(cfg, Initial(cfg), steps);
  }
}
