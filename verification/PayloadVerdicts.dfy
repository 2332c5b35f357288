/** newPayload answers and dummy payloads over whole runs. */
module PayloadVerdicts {
  import opened Types
  import opened PayloadIds
  import opened PayloadBuilding
  import opened BaseFee
  import opened NewPayloads
  import opened Protocol
  import Lru

  // ----- traceability of newPayload answers ------------------------------------------

  /** The engine gave this status to a payload declaring this block hash. */
  ghost predicate HashReplied(history: seq<Event>, hash: Hash, status: PayloadStatus) {
    exists payload: ExecutionPayload :: payload.blockHash == hash && PayloadReply(payload, status) in history
  }

  /** The payloads the engine was sent and did not dismiss. */
  ghost function Seen(history: seq<Event>): set<ExecutionPayload> {
    set e | e in history && e.PayloadReply? && !Dismissed(e.status.verdict) :: e.payload
  }

  ghost predicate VerdictsTraced(cache: PayloadCache, history: seq<Event>) {
    forall hash {:trigger Lru.Peek(cache, hash)} :: Lru.Contains(cache, hash) ==>
        HashReplied(history, hash, Lru.Peek(cache, hash).value.status)
  }

  ghost predicate PcTraced(cfg: Config, history: seq<Event>, job: Job, pc: Pc) {
    IsNewPayload(job) ==>
      && (pc.StorePayload? || pc.RegisterPayload? ==> PayloadReply(job.request.payload, pc.reply) in history)
      && (pc.RegisterPayload? ==> job.request.payload in Seen(history))
      && (job.ClientNewPayload? && !(pc.Finished? && (pc.outcome.BlockHashMismatch? || pc.outcome.Dropped?)) ==>
          cfg.blockHashVerifies(job.request))
      && (pc.Finished? && pc.outcome.StatusDone? ==>
            || HashReplied(history, job.request.payload.blockHash, pc.outcome.status)
            || (&& job.ClientNewPayload? && pc.outcome.status == SYNTHETIC_SYNCING
                && cfg.versionedHashesVerify(job.request)))
  }

  ghost predicate Traced(cfg: Config, m: Machine) {
    && CachesOk(m.shared)
    && VerdictsTraced(m.shared.newPayload, m.history)
    && Consistent(cfg, m.shared.builder, m.builds, Seen(m.history))
    && (forall tid :: tid in m.tasks ==> PcTraced(cfg, m.history, m.tasks[tid].job, m.tasks[tid].pc))
  }

  lemma {:induction false} HistoryGrows(cfg: Config, history: seq<Event>, more: seq<Event>)
    requires history <= more
    ensures Seen(history) <= Seen(more)
    ensures forall hash, status :: HashReplied(history, hash, status) ==> HashReplied(more, hash, status)
    ensures forall job, pc :: PcTraced(cfg, history, job, pc) ==> PcTraced(cfg, more, job, pc)
  {
    assert forall e :: e in history ==> e in more;
    forall hash, status | HashReplied(history, hash, status) ensures HashReplied(more, hash, status) {
      var payload: ExecutionPayload :| payload.blockHash == hash && PayloadReply(payload, status) in history;
    }
  }

  lemma {:induction false} SectionPcTraced(cfg: Config, m: Machine, job: Job, pc: Pc)
    requires Fits(job, pc) && LockOf(pc).Some? && VerdictsTraced(m.shared.newPayload, m.history)
    requires PcTraced(cfg, m.history, job, pc)
    ensures PcTraced(cfg, m.history, job, CriticalSection(cfg, m.shared, job, pc).pc)
  {
    match pc
    case StorePayload(reply) =>
      assert PayloadReply(job.request.payload, reply) in m.history;
      assert HashReplied(m.history, job.request.payload.blockHash, reply);
    case RegisterPayload(reply) =>
      assert HashReplied(m.history, job.request.payload.blockHash, reply);
    case _ =>
  }

  lemma {:induction false} SectionVerdictsTraced(cfg: Config, m: Machine, job: Job, pc: Pc)
    requires Fits(job, pc) && LockOf(pc).Some? && CachesOk(m.shared)
    requires VerdictsTraced(m.shared.newPayload, m.history) && PcTraced(cfg, m.history, job, pc)
    ensures VerdictsTraced(CriticalSection(cfg, m.shared, job, pc).shared.newPayload, m.history)
  {
    if pc.ProbePayload? {
      Lru.TouchFacts(m.shared.newPayload, job.request.payload.blockHash);
    } else if pc.StorePayload? {
      var payload := job.request.payload;
      Lru.PutFacts(m.shared.newPayload, payload.blockHash, Entry(pc.reply, payload.blockNumber));
      assert HashReplied(m.history, payload.blockHash, pc.reply);
    }
  }

  lemma {:induction false} SectionBuilderConsistent(cfg: Config, m: Machine, job: Job, pc: Pc)
    requires Fits(job, pc) && LockOf(pc).Some?
    requires Consistent(cfg, m.shared.builder, m.builds, Seen(m.history)) && PcTraced(cfg, m.history, job, pc)
    ensures var effect := CriticalSection(cfg, m.shared, job, pc);
            Consistent(cfg, effect.shared.builder, Extended(m.builds, effect.build), Seen(m.history))
  {
    var b, seen := m.shared.builder, Seen(m.history);
    match pc
    case Attributes(_) =>
      RegisterKeeps(cfg, b, (job.fcu.head, job.attributes.value), m.builds, seen);
      LookUpKeeps(cfg, b, (job.fcu.head, job.attributes.value), m.builds, seen);
    case RegisterPayload(_) => RecordKeeps(cfg, b, job.request.payload, m.builds, seen);
    case FetchFromBuilder => FetchKeeps(cfg, b, job.id, m.builds, seen);
    case _ =>
  }

  lemma {:induction false} SectionTraced(cfg: Config, m: Machine, tid: nat)
    requires Traced(cfg, m) && Enabled(m, Proceed(tid))
    ensures Traced(cfg, Apply(cfg, m, Proceed(tid)))
  {
    var task := m.tasks[tid];
    SectionKeepsCaches(cfg, m.shared, task.job, task.pc);
    SectionPcTraced(cfg, m, task.job, task.pc);
    SectionVerdictsTraced(cfg, m, task.job, task.pc);
    SectionBuilderConsistent(cfg, m, task.job, task.pc);
  }

  lemma {:induction false} StepTraced(cfg: Config, m: Machine, step: Step)
    requires Traced(cfg, m) && Enabled(m, step)
    ensures Traced(cfg, Apply(cfg, m, step))
  {
    if step.Proceed? {
      SectionTraced(cfg, m, step.tid);
    } else {
      var n := Apply(cfg, m, step);
      StepShared(cfg, m, step);
      HistoryGrows(cfg, m.history, n.history);
      SeenGrows(cfg, m.shared.builder, m.builds, Seen(m.history), Seen(n.history));
    }
  }

  lemma {:induction false} RunTraced(cfg: Config, m: Machine, steps: seq<Step>)
    requires Traced(cfg, m) && Run(cfg, m, steps).Some?
    ensures Traced(cfg, Run(cfg, m, steps).value)
    decreases |steps|
  {
    if steps != [] {
      RunTraced(cfg, m, steps[..|steps| - 1]);
      StepTraced(cfg, Run(cfg, m, steps[..|steps| - 1]).value, steps[|steps| - 1]);
    }
  }

  lemma {:induction false} ReachableTraced(cfg: Settings, m: Machine)
    requires Reachable(cfg, m)
    ensures Traced(cfg, m)
  {
    var steps :| Run(cfg, Initial(cfg), steps) == Some(m);
    InitialCachesOk(cfg);
    NewIsConsistent(cfg, cfg.payloadBuilderCacheSize);
    assert Seen([]) == {};
    RunTraced(cfg, Initial(cfg), steps);
  }

  /**
   * A client's newPayload answer is for a request whose block hash was verified, and is either the
   * engine's own answer to a controller payload declaring that hash, or the made-up SYNCING, and
   * then only if the versioned hashes were verified too.
   */
  lemma {:induction false} ClientAnswersAreTraced(cfg: Settings, m: Machine, tid: nat)
    requires Reachable(cfg, m) && tid in m.tasks
    requires m.tasks[tid].job.ClientNewPayload? && m.tasks[tid].pc.Finished? && m.tasks[tid].pc.outcome.StatusDone?
    ensures var request, status := m.tasks[tid].job.request, m.tasks[tid].pc.outcome.status;
            && cfg.blockHashVerifies(request)
            && (|| HashReplied(m.history, request.payload.blockHash, status)
                || (status == SYNTHETIC_SYNCING && cfg.versionedHashesVerify(request)))
  {
    ReachableTraced(cfg, m);
    assert PcTraced(cfg, m.history, m.tasks[tid].job, m.tasks[tid].pc);
  }

  // ----- the builder over whole runs ---------------------------------------------------

  /** In every reachable state the builder's counter and caches agree with the builds that took place. */
  lemma {:induction false} BuilderAlwaysConsistent(cfg: Settings, m: Machine)
    requires Reachable(cfg, m)
    ensures Consistent(cfg, m.shared.builder, m.builds, Seen(m.history))
  {
    ReachableTraced(cfg, m);
  }

  /**
   * What was built upon. In every reachable state each build has a parent that the engine was sent and
   * did not call invalid: the built number is the parent's plus one, the state root the parent's, and
   * the fee the one due after the parent's own fee, gas used and gas limit.
   */
  lemma {:induction false} BuildsFollowParents(cfg: Settings, m: Machine, i: nat)
    returns (parent: ExecutionPayload, status: PayloadStatus)
    requires Reachable(cfg, m) && i < |m.builds|
    ensures PayloadReply(parent, status) in m.history && status.verdict !in {Invalid, InvalidBlockHash}
    ensures var key, built := m.builds[i].key, m.builds[i].payload;
            && parent.blockHash == key.0 == built.parentHash
            && built.blockNumber == (parent.blockNumber + 1) % U64_LIMIT
            && built.stateRoot == parent.stateRoot
            && ExpectedBaseFeePerGas(parent.baseFeePerGas, parent.gasUsed, parent.gasLimit) == Some(built.baseFeePerGas)
  {
    BuilderAlwaysConsistent(cfg, m);
    var build := m.builds[i];
    assert Vouched(build.key.0, build.parentInfo, Seen(m.history));
    parent :| parent in Seen(m.history) && parent.blockHash == build.key.0 && InfoOf(parent) == build.parentInfo;
    var event :| event in m.history && event.PayloadReply? && !Dismissed(event.status.verdict)
        && event.payload == parent;
    status := event.status;
  }

  /**
   * Identifiers over a whole run. Two builds share one exactly if their ranks agree modulo 2^64; and
   * until there were that many, identifiers strictly increase, lie below the counter, and belong to
   * one key each.
   */
  lemma {:induction false} IdsOverRuns(cfg: Settings, m: Machine)
    requires Reachable(cfg, m)
    ensures forall i, j :: 0 <= i < |m.builds| && 0 <= j < |m.builds| ==>
              (m.builds[i].id == m.builds[j].id <==> i % U64_LIMIT == j % U64_LIMIT)
    ensures |m.builds| < U64_LIMIT ==> IdsInOrder(m)
  {
    BuilderAlwaysConsistent(cfg, m);
    forall i, j | 0 <= i < |m.builds| && 0 <= j < |m.builds|
      ensures m.builds[i].id == m.builds[j].id <==> i % U64_LIMIT == j % U64_LIMIT
    {
      IdsRepeatOnlyAfterWrap(m.shared.builder, m.builds, i, j);
    }
    if |m.builds| < U64_LIMIT {
      IdsStayInOrder(cfg, m);
    }
  }

  ghost predicate IdsInOrder(m: Machine) {
    && (forall i, j :: 0 <= i < j < |m.builds| ==> FromBeBytes(m.builds[i].id) < FromBeBytes(m.builds[j].id))
    && (forall key :: Lru.Contains(m.shared.builder.attributes, key) ==>
          FromBeBytes(Lru.Peek(m.shared.builder.attributes, key).value) < m.shared.builder.nextPayloadId)
    && (forall id :: Lru.Contains(m.shared.builder.payloads, id) ==> FromBeBytes(id) < m.shared.builder.nextPayloadId)
    && (forall k1, k2 | Lru.Contains(m.shared.builder.attributes, k1)
        && Lru.Contains(m.shared.builder.attributes, k2) ::
          Lru.Peek(m.shared.builder.attributes, k1) == Lru.Peek(m.shared.builder.attributes, k2) ==> k1 == k2)
  }

  lemma {:induction false} IdsStayInOrder(cfg: Settings, m: Machine)
    requires Reachable(cfg, m) && |m.builds| < U64_LIMIT
    ensures IdsInOrder(m)
  {
    var b, seen := m.shared.builder, Seen(m.history);
    BuilderAlwaysConsistent(cfg, m);
    ResidentIdsBelowNext(cfg, b, m.builds, seen);
    forall i, j | 0 <= i < j < |m.builds| ensures FromBeBytes(m.builds[i].id) < FromBeBytes(m.builds[j].id) {
      IdsRepeatOnlyAfterWrap(b, m.builds, i, j);
    }
    forall k1, k2 | Lru.Contains(b.attributes, k1) && Lru.Contains(b.attributes, k2)
                    && Lru.Peek(b.attributes, k1) == Lru.Peek(b.attributes, k2)
      ensures k1 == k2
    {
      AttributesInjective(cfg, b, m.builds, seen, k1, k2);
    }
  }

  /** No fetch is ever answered with a Fulu payload, which the response code could not serialise. */
  lemma {:induction false} FetchNeverPanics(cfg: Settings, m: Machine, tid: nat)
    requires Reachable(cfg, m) && tid in m.tasks && m.tasks[tid].pc.FetchFromBuilder? && m.tasks[tid].inside
    ensures var pc := Apply(cfg, m, Proceed(tid)).tasks[tid].pc;
            pc.Finished? && pc.outcome.Fetched? ==> !pc.outcome.payload.variant.FuluPayload?
  {
    BuilderAlwaysConsistent(cfg, m);
    var id := m.tasks[tid].job.id;
    if Lru.Contains(m.shared.builder.payloads, id) {
      NeverFulu(cfg, m.shared.builder, m.builds, Seen(m.history), id);
    }
  }
}
