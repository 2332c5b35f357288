/** When a cached newPayload verdict can and cannot be lost, and how long clients wait for one. */
module PayloadStability {
  import opened Types
  import opened NewPayloads
  import opened Protocol
  import Locks
  import Lru

  /** A controller call for this hash has missed the cache and has not yet stored its reply. */
  predicate InFlight(task: Task, hash: Hash) {
    task.job.ControllerNewPayload? && task.job.request.payload.blockHash == hash
        && (task.pc.CallEngine? || task.pc.StorePayload?)
  }

  ghost predicate AtMostOneInFlight(m: Machine, hash: Hash) {
    forall a, b :: a in m.tasks && b in m.tasks && InFlight(m.tasks[a], hash) && InFlight(m.tasks[b], hash) ==> a == b
  }

  ghost predicate NeverOverlapping(cfg: Config, m: Machine, steps: seq<Step>, hash: Hash) {
    forall i :: 0 <= i <= |steps| ==>
      Run(cfg, m, steps[..i]).Some? && AtMostOneInFlight(Run(cfg, m, steps[..i]).value, hash)
  }

  predicate Settled(sh: Shared, hash: Hash) {
    Lru.Contains(sh.newPayload, hash) && IsDefinite(Lru.Peek(sh.newPayload, hash).value.status)
  }

  /** Nobody is about to overwrite a settled verdict. */
  ghost predicate NoneInFlightOnceSettled(m: Machine, hash: Hash) {
    Settled(m.shared, hash) ==> forall tid :: tid in m.tasks ==> !InFlight(m.tasks[tid], hash)
  }

  /** One critical section: only storing a reply settles a verdict, and only an unsettled one is sent for. */
  lemma {:induction false} SectionKeepsOrder(cfg: Config, sh: Shared, job: Job, pc: Pc, hash: Hash)
    requires CachesOk(sh) && Fits(job, pc) && LockOf(pc).Some?
    requires Settled(sh, hash) ==> !InFlight(Task(job, pc, true), hash)
    ensures var effect := CriticalSection(cfg, sh, job, pc);
            && (Settled(effect.shared, hash) ==> Settled(sh, hash) || InFlight(Task(job, pc, true), hash))
            && (Settled(effect.shared, hash) ==> !InFlight(Task(job, effect.pc, false), hash))
  {
    if pc.ProbePayload? {
      Lru.TouchFacts(sh.newPayload, job.request.payload.blockHash);
    } else if pc.StorePayload? {
      Lru.PutFacts(sh.newPayload, job.request.payload.blockHash, Entry(pc.reply, job.request.payload.blockNumber));
    }
  }

  lemma {:induction false} StepKeepsOrder(cfg: Config, m: Machine, step: Step, hash: Hash)
    requires CachesOk(m.shared) && Enabled(m, step) && AtMostOneInFlight(m, hash)
    requires NoneInFlightOnceSettled(m, hash)
    ensures NoneInFlightOnceSettled(Apply(cfg, m, step), hash)
  {
    StepShared(cfg, m, step);
    if step.Proceed? {
      SectionKeepsOrder(cfg, m.shared, m.tasks[step.tid].job, m.tasks[step.tid].pc, hash);
      OthersNotInFlight(cfg, m, step.tid, hash);
    }
  }

  lemma {:induction false} OthersNotInFlight(cfg: Config, m: Machine, tid: nat, hash: Hash)
    requires AtMostOneInFlight(m, hash) && NoneInFlightOnceSettled(m, hash) && tid in m.tasks
    ensures Settled(m.shared, hash) || InFlight(m.tasks[tid], hash) ==>
              forall other :: other in m.tasks && other != tid ==> !InFlight(m.tasks[other], hash)
  {
  }

  lemma {:induction false} RunKeepsOrder(cfg: Config, m: Machine, steps: seq<Step>, hash: Hash)
    requires CachesOk(m.shared) && NoneInFlightOnceSettled(m, hash)
    requires NeverOverlapping(cfg, m, steps, hash)
    ensures Run(cfg, m, steps).Some? && NoneInFlightOnceSettled(Run(cfg, m, steps).value, hash)
    decreases |steps|
  {
    assert steps[..|steps|] == steps;
    if steps != [] {
      var init := steps[..|steps| - 1];
      assert forall i :: 0 <= i <= |init| ==> init[..i] == steps[..i];
      RunKeepsOrder(cfg, m, init, hash);
      RunKeepsCaches(cfg, m, init);
      StepKeepsOrder(cfg, Run(cfg, m, init).value, steps[|steps| - 1], hash);
    }
  }

  /** A step alters a settled verdict exactly when it stores another reply for the same hash. */
  lemma {:induction false} AlteredExactlyWhen(cfg: Config, m: Machine, step: Step, hash: Hash)
    requires CachesOk(m.shared) && Enabled(m, step) && Settled(m.shared, hash)
    ensures var before := Lru.Peek(m.shared.newPayload, hash);
            var after := Lru.Peek(Apply(cfg, m, step).shared.newPayload, hash);
            after.Some? && after.value.status != before.value.status <==>
            && step.Proceed?
            && m.tasks[step.tid].pc.StorePayload?
            && m.tasks[step.tid].job.request.payload.blockHash == hash
            && m.tasks[step.tid].pc.reply != before.value.status
  {
    if step.Proceed? {
      var job, pc := m.tasks[step.tid].job, m.tasks[step.tid].pc;
      if pc.ProbePayload? {
        Lru.TouchFacts(m.shared.newPayload, job.request.payload.blockHash);
      } else if pc.StorePayload? {
        var payload := job.request.payload;
        Lru.PutFacts(m.shared.newPayload, payload.blockHash, Entry(pc.reply, payload.blockNumber));
      }
    }
  }

  /** With at most one controller call per hash in flight at a time, a settled verdict stays until evicted. */
  lemma {:induction false} SettledUntilEvicted(cfg: Settings, steps: seq<Step>, m: Machine, step: Step, hash: Hash)
    requires NeverOverlapping(cfg, Initial(cfg), steps, hash) && Run(cfg, Initial(cfg), steps) == Some(m)
    requires Enabled(m, step) && Settled(m.shared, hash)
    ensures var after := Apply(cfg, m, step).shared.newPayload;
            Lru.Contains(after, hash) ==>
                Lru.Peek(after, hash).value.status == Lru.Peek(m.shared.newPayload, hash).value.status
  {
    InitialCachesOk(cfg);
    RunKeepsCaches(cfg, Initial(cfg), steps);
    RunKeepsOrder(cfg, Initial(cfg), steps, hash);
    AlteredExactlyWhen(cfg, m, step, hash);
  }

  /**
   * The condition is needed: from any reachable state in which two calls for one hash await the
   * engine, some continuation stores VALID and then replaces it by SYNCING.
   */
  lemma {:induction false} OverlapCanDowngrade(cfg: Settings, m: Machine, first: nat, second: nat)
    returns (toValid: seq<Step>, valid: Machine, toSyncing: seq<Step>, syncing: Machine)
    requires Reachable(cfg, m) && first != second && first in m.tasks && second in m.tasks
    requires m.tasks[first].job.ControllerNewPayload? && m.tasks[first].pc.CallEngine?
    requires m.tasks[second].job.ControllerNewPayload? && m.tasks[second].pc.CallEngine?
    requires m.tasks[first].job.request.payload.blockHash == m.tasks[second].job.request.payload.blockHash
    ensures var hash := m.tasks[first].job.request.payload.blockHash;
            && Run(cfg, m, toValid) == Some(valid) && Lru.Contains(valid.shared.newPayload, hash)
            && Lru.Peek(valid.shared.newPayload, hash).value.status.verdict.Valid?
            && Run(cfg, valid, toSyncing) == Some(syncing) && Lru.Contains(syncing.shared.newPayload, hash)
            && Lru.Peek(syncing.shared.newPayload, hash).value.status.verdict.Syncing?
  {
    Locks.MutualExclusion(cfg, m);
    ReachableCachesOk(cfg, m);
    var freeing, free := Locks.FreeUp(cfg, m, NewPayloadLock);
    RunKeepsCaches(cfg, m, freeing);
    assert free.tasks[first] == m.tasks[first] && free.tasks[second] == m.tasks[second];
    var toValid', stored := StoreReply(cfg, free, first, PayloadStatus(Valid, None, None));
    RunConcat(cfg, m, freeing, toValid');
    toValid, valid := freeing + toValid', stored;
    toSyncing, syncing := StoreReply(cfg, valid, second, SYNTHETIC_SYNCING);
  }

  /** The engine answers one call and the reply is stored at once. */
  lemma {:induction false} StoreReply(cfg: Config, m: Machine, tid: nat, reply: PayloadStatus)
    returns (steps: seq<Step>, n: Machine)
    requires CachesOk(m.shared) && Free(m, NewPayloadLock) && tid in m.tasks
    requires m.tasks[tid].job.ControllerNewPayload? && m.tasks[tid].pc.CallEngine?
    ensures Run(cfg, m, steps) == Some(n) && CachesOk(n.shared) && Free(n, NewPayloadLock)
    ensures forall other :: other in m.tasks && other != tid ==> other in n.tasks && n.tasks[other] == m.tasks[other]
    ensures var payload := m.tasks[tid].job.request.payload;
            Lru.Peek(n.shared.newPayload, payload.blockHash) == Some(Entry(reply, payload.blockNumber))
  {
    var payload := m.tasks[tid].job.request.payload;
    var s1, s2, s3 := Answer(tid, Some(reply)), Acquire(tid), Proceed(tid);
    var m1 := Apply(cfg, m, s1);
    assert m1.tasks[tid].pc == StorePayload(reply);
    var m2 := Apply(cfg, m1, s2);
    n := Apply(cfg, m2, s3);
    SectionKeepsCaches(cfg, m2.shared, m2.tasks[tid].job, m2.tasks[tid].pc);
    Lru.PutFacts(m.shared.newPayload, payload.blockHash, Entry(reply, payload.blockNumber));
    RunSnoc(cfg, m, [], s1);
    RunSnoc(cfg, m, [] + [s1], s2);
    RunSnoc(cfg, m, [] + [s1] + [s2], s3);
    steps := [] + [s1] + [s2] + [s3];
  }

  // ----- how long clients wait ------------------------------------------------------------

  function WaitMillis(cfg: Config, job: Job): nat {
    if job.ClientFcu? then cfg.fcuWaitMillis
    else if job.ClientNewPayload? then cfg.newPayloadWaitMillis
    else 0
  }

  /** The wait divided by the sleep, rounded up. */
  function MaxPolls(cfg: Config, job: Job): nat {
    (WaitMillis(cfg, job) + SLEEP_MILLIS - 1) / SLEEP_MILLIS
  }

  function ClockOf(pc: Pc): Clock {
    match pc
    case Poll(at) => at
    case Probe(_, at) => at
    case ProbeJustified(_, at, _) => at
    case ProbeFinalized(_, at, _) => at
    case ProbePayload(_, at) => at
    case _ => START
  }

  predicate Waiting(pc: Pc) {
    match pc
    case Probe(definiteOnly, _) => definiteOnly
    case ProbeJustified(definiteOnly, _, _) => definiteOnly
    case ProbeFinalized(definiteOnly, _, _) => definiteOnly
    case ProbePayload(definiteOnly, _) => definiteOnly
    case _ => false
  }

  /** A probe that takes any answer. */
  predicate Settling(pc: Pc) {
    match pc
    case Probe(definiteOnly, _) => !definiteOnly
    case ProbeJustified(definiteOnly, _, _) => !definiteOnly
    case ProbeFinalized(definiteOnly, _, _) => !definiteOnly
    case ProbePayload(definiteOnly, _) => !definiteOnly
    case _ => false
  }

  /**
   * Every sleep took at least its 50 ms, a waiting task still had time left when it began to look,
   * and a client settles for an indefinite or made-up answer only once its time is up (or, for a
   * payload that is not recent, at once).
   */
  predicate ClockOk(cfg: Config, job: Job, pc: Pc) {
    var at := ClockOf(pc);
    && SLEEP_MILLIS * at.polls <= at.elapsed
    && at.polls <= MaxPolls(cfg, job)
    && ((job.ClientFcu? || job.ClientNewPayload?) && Waiting(pc) ==> at.elapsed < WaitMillis(cfg, job))
    && (job.ClientFcu? && Settling(pc) ==> at.elapsed >= cfg.fcuWaitMillis)
    && (job.ClientNewPayload? && Settling(pc) ==> at.elapsed >= cfg.newPayloadWaitMillis || at == START)
    && (job.ControllerFcu? || job.ControllerNewPayload? ==> at == START)
  }

  lemma {:induction false} SectionKeepsClock(cfg: Config, sh: Shared, job: Job, pc: Pc)
    requires Fits(job, pc) && LockOf(pc).Some? && ClockOk(cfg, job, pc)
    ensures ClockOk(cfg, job, CriticalSection(cfg, sh, job, pc).pc)
  {
    if Waiting(pc) && WaitMillis(cfg, job) > 0 {
      PollsBound(WaitMillis(cfg, job), ClockOf(pc).polls);
    }
  }

  lemma {:induction false} PollsBound(wait: nat, polls: nat)
    ensures SLEEP_MILLIS * polls < wait ==> polls + 1 <= (wait + SLEEP_MILLIS - 1) / SLEEP_MILLIS
  {
  }

  /** No client sleeps more often than its configured wait divided by 50 ms, rounded up, nor gives up sooner. */
  lemma {:induction false} WaitsAreBounded(cfg: Config, steps: seq<Step>, m: Machine, tid: nat)
    requires Run(cfg, Initial(cfg), steps) == Some(m) && tid in m.tasks
    ensures ClockOk(cfg, m.tasks[tid].job, m.tasks[tid].pc)
    decreases |steps|
  {
    if steps != [] {
      var init, last := steps[..|steps| - 1], steps[|steps| - 1];
      var before := Run(cfg, Initial(cfg), init).value;
      if tid in before.tasks {
        WaitsAreBounded(cfg, init, before, tid);
        if last.Proceed? && last.tid == tid {
          SectionKeepsClock(cfg, before.shared, before.tasks[tid].job, before.tasks[tid].pc);
        }
      }
    }
  }
}
