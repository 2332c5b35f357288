/** A verdict on a payload, and a payload that can be built upon, are not lost too soon. */
module PayloadRetention {
  import opened Types
  import opened PayloadBuilding
  import opened NewPayloads
  import opened Protocol
  import opened Answers
  import opened Retention
  import Lru

  // ----- the operations of a run on the two caches ------------------------------------------

  datatype PayloadOps = PayloadOps(
    verdicts: seq<Lru.Op<Hash, Entry>>,
    info: seq<Lru.Op<Hash, PayloadInfo>>)

  function SectionPayloadOps(cfg: Config, sh: Shared, job: Job, pc: Pc): PayloadOps
    requires Fits(job, pc) && LockOf(pc).Some?
  {
    match pc
    case ProbePayload(_, _) => PayloadOps(UsedIfResident(sh.newPayload, job.request.payload.blockHash), [])
    case StorePayload(reply) =>
      PayloadOps([Lru.Written(job.request.payload.blockHash, Entry(reply, job.request.payload.blockNumber))], [])
    case RegisterPayload(_) =>
      var payload := job.request.payload;
      PayloadOps([], if Lru.Contains(sh.builder.info, payload.blockHash) then [Lru.Used(payload.blockHash)]
                     else [Lru.Written(payload.blockHash, InfoOf(payload))])
    case Attributes(_) =>
      var key := (job.fcu.head, job.attributes.value);
      if job.ControllerFcu? && TimestampToSlot(cfg, key.1.timestamp).Some?
          && !Lru.Contains(sh.builder.attributes, key) then
        PayloadOps([], UsedIfResident(sh.builder.info, job.fcu.head))
      else PayloadOps([], [])
    case _ => PayloadOps([], [])
  }

  ghost function StepPayloadOps(cfg: Config, m: Machine, step: Step): PayloadOps
    requires Enabled(m, step)
  {
    if step.Proceed? then SectionPayloadOps(cfg, m.shared, m.tasks[step.tid].job, m.tasks[step.tid].pc)
    else PayloadOps([], [])
  }

  ghost function PayloadOpsOf(cfg: Config, m: Machine, steps: seq<Step>): PayloadOps
    requires Run(cfg, m, steps).Some?
    decreases |steps|
  {
    if steps == [] then PayloadOps([], [])
    else
      var init := steps[..|steps| - 1];
      var before, last := PayloadOpsOf(cfg, m, init), StepPayloadOps(cfg, Run(cfg, m, init).value, steps[|steps| - 1]);
      PayloadOps(before.verdicts + last.verdicts, before.info + last.info)
  }

  lemma {:induction false} SectionPerformsPayloadOps(cfg: Config, sh: Shared, job: Job, pc: Pc)
    requires Fits(job, pc) && LockOf(pc).Some?
    ensures var after, ops := CriticalSection(cfg, sh, job, pc).shared, SectionPayloadOps(cfg, sh, job, pc);
            && after.newPayload == Lru.Replay(sh.newPayload, ops.verdicts)
            && after.builder.info == Lru.Replay(sh.builder.info, ops.info)
  {
    match pc
    case ProbePayload(_, _) => ReplayOne(sh.newPayload, Lru.Used(job.request.payload.blockHash));
    case StorePayload(reply) =>
      var payload := job.request.payload;
      ReplayOne(sh.newPayload, Lru.Written(payload.blockHash, Entry(reply, payload.blockNumber)));
    case RegisterPayload(_) =>
      ReplayOne(sh.builder.info, Lru.Used(job.request.payload.blockHash));
      ReplayOne(sh.builder.info, Lru.Written(job.request.payload.blockHash, InfoOf(job.request.payload)));
    case Attributes(_) => ReplayOne(sh.builder.info, Lru.Used(job.fcu.head));
    case _ =>
  }

  lemma {:induction false} StepPerformsPayloadOps(cfg: Config, m: Machine, step: Step)
    requires Enabled(m, step)
    ensures var after, ops := Apply(cfg, m, step).shared, StepPayloadOps(cfg, m, step);
            && after.newPayload == Lru.Replay(m.shared.newPayload, ops.verdicts)
            && after.builder.info == Lru.Replay(m.shared.builder.info, ops.info)
  {
    StepShared(cfg, m, step);
    if step.Proceed? {
      SectionPerformsPayloadOps(cfg, m.shared, m.tasks[step.tid].job, m.tasks[step.tid].pc);
    }
  }

  /** A whole run does to these two caches, too, exactly the operations listed. */
  lemma {:induction false} RunPerformsPayloadOps(cfg: Config, m: Machine, steps: seq<Step>)
    requires Run(cfg, m, steps).Some?
    ensures var after, ops := Run(cfg, m, steps).value.shared, PayloadOpsOf(cfg, m, steps);
            && after.newPayload == Lru.Replay(m.shared.newPayload, ops.verdicts)
            && after.builder.info == Lru.Replay(m.shared.builder.info, ops.info)
    decreases |steps|
  {
    if steps != [] {
      var init, last := steps[..|steps| - 1], steps[|steps| - 1];
      RunPerformsPayloadOps(cfg, m, init);
      var n := Run(cfg, m, init).value;
      var soFar, now := PayloadOpsOf(cfg, m, init), StepPayloadOps(cfg, n, last);
      StepPerformsPayloadOps(cfg, n, last);
      ReplayConcat(m.shared.newPayload, soFar.verdicts, now.verdicts);
      ReplayConcat(m.shared.builder.info, soFar.info, now.info);
    }
  }

  // ----- verdicts -----------------------------------------------------------------------------

  /** Some entry with this verdict is held; its block number may change. */
  ghost predicate VerdictHeld(cache: PayloadCache, hash: Hash, status: PayloadStatus, others: set<Hash>) {
    exists number: U64 :: Lru.Held(cache, hash, Entry(status, number), others)
  }

  /** No other verdict is stored for the hash. */
  ghost predicate SameVerdict(ops: seq<Lru.Op<Hash, Entry>>, hash: Hash, status: PayloadStatus) {
    forall op :: op in ops && op.Written? && op.key == hash ==> op.value.status == status
  }

  lemma {:induction false} VerdictOpHeld(cache: PayloadCache, op: Lru.Op<Hash, Entry>, hash: Hash,
      status: PayloadStatus,
      others: set<Hash>)
    requires Lru.WellFormed(cache) && VerdictHeld(cache, hash, status, others) && SameVerdict([op], hash, status)
    requires |others + Lru.Others([op], hash)| < cache.capacity
    ensures Lru.WellFormed(Lru.Perform(cache, op)) && Lru.Perform(cache, op).capacity == cache.capacity
    ensures VerdictHeld(Lru.Perform(cache, op), hash, status, others + Lru.Others([op], hash))
  {
    var number: U64 :| Lru.Held(cache, hash, Entry(status, number), others);
    assert op in [op];
    if op.Written? && op.key == hash {
      Lru.PutFacts(cache, hash, op.value);
      assert Lru.Held(Lru.Perform(cache, op), hash, Entry(status, op.value.blockNumber),
          others + Lru.Others([op], hash));
    } else {
      Lru.HeldStep(cache, hash, Entry(status, number), others, op);
    }
  }

  /** The working-set property for verdicts: storing the same verdict again does no harm. */
  lemma {:induction false} VerdictOpsHeld(cache: PayloadCache, ops: seq<Lru.Op<Hash, Entry>>, hash: Hash,
      status: PayloadStatus, others: set<Hash>)
    requires Lru.WellFormed(cache) && VerdictHeld(cache, hash, status, others) && SameVerdict(ops, hash, status)
    requires |others + Lru.Others(ops, hash)| < cache.capacity
    ensures Lru.WellFormed(Lru.Replay(cache, ops)) && Lru.Replay(cache, ops).capacity == cache.capacity
    ensures VerdictHeld(Lru.Replay(cache, ops), hash, status, others + Lru.Others(ops, hash))
    decreases |ops|
  {
    if ops != [] {
      var init, last := ops[..|ops| - 1], ops[|ops| - 1];
      Parts(ops, init, last, hash, status, others);
      VerdictOpsHeld(cache, init, hash, status, others);
      VerdictOpHeld(Lru.Replay(cache, init), last, hash, status, others + Lru.Others(init, hash));
    } else {
      assert others + Lru.Others(ops, hash) == others;
    }
  }

  lemma {:induction false} Parts(ops: seq<Lru.Op<Hash, Entry>>, init: seq<Lru.Op<Hash, Entry>>, last: Lru.Op<Hash,
      Entry>,
      hash: Hash, status: PayloadStatus, others: set<Hash>)
    requires ops != [] && init == ops[..|ops| - 1] && last == ops[|ops| - 1] && SameVerdict(ops, hash, status)
    ensures SameVerdict(init, hash, status) && SameVerdict([last], hash, status)
    ensures others + Lru.Others(init, hash) + Lru.Others([last], hash) == others + Lru.Others(ops, hash)
    ensures |others + Lru.Others(init, hash)| <= |others + Lru.Others(ops, hash)|
  {
    assert ops == init + [last];
    OthersConcat(init, [last], hash);
    Lru.SubsetSize(others + Lru.Others(init, hash), others + Lru.Others(ops, hash));
  }

  /**
   * No lost verdict. Once the engine's reply to a payload is stored, every client that looks for it later
   * is given that verdict, at a last look whatever it is, and before that if and only if it is definite;
   * until as many other hashes have been touched as the cache holds, or another reply for the hash is
   * stored.
   */
  lemma {:induction false} VerdictKept(cfg: Settings, m: Machine, writer: nat, stored: Machine, steps: seq<Step>,
      n: Machine, client: nat)
    requires Reachable(cfg, m) && writer in m.tasks && m.tasks[writer].inside && m.tasks[writer].pc.StorePayload?
    requires stored == Apply(cfg, m, Proceed(writer)) && Run(cfg, stored, steps) == Some(n)
    requires var hash, ops := m.tasks[writer].job.request.payload.blockHash, PayloadOpsOf(cfg, stored, steps).verdicts;
             SameVerdict(ops, hash, m.tasks[writer].pc.reply) && |Lru.Others(ops, hash)| < cfg.newPayloadCacheSize
    requires client in n.tasks && n.tasks[client].job.ClientNewPayload? && n.tasks[client].inside
    requires n.tasks[client].job.request.payload.blockHash == m.tasks[writer].job.request.payload.blockHash
    requires n.tasks[client].pc.ProbePayload?
    ensures var reply := m.tasks[writer].pc.reply;
            Apply(cfg, n, Proceed(client)).tasks[client].pc == Finished(StatusDone(reply)) <==>
            !n.tasks[client].pc.definiteOnly || reply.verdict in {Valid, Invalid, InvalidBlockHash}
  {
    var payload, reply := m.tasks[writer].job.request.payload, m.tasks[writer].pc.reply;
    ReachableStep(cfg, m, Proceed(writer));
    ReachableCachesOk(cfg, m);
    ReachableCachesOk(cfg, stored);
    Lru.PutFacts(m.shared.newPayload, payload.blockHash, Entry(reply, payload.blockNumber));
    StoredStays(cfg, stored, steps, payload.blockHash, reply, payload.blockNumber);
    PayloadLookAnswers(cfg, n, client);
  }

  lemma {:induction false} StoredStays(cfg: Settings, m: Machine, steps: seq<Step>, hash: Hash, reply: PayloadStatus,
      number: U64)
    requires CachesOk(m.shared) && m.shared.newPayload.capacity == cfg.newPayloadCacheSize && Run(cfg, m, steps).Some?
    requires Lru.Held(m.shared.newPayload, hash, Entry(reply, number), {})
    requires var ops := PayloadOpsOf(cfg, m, steps).verdicts;
             SameVerdict(ops, hash, reply) && |Lru.Others(ops, hash)| < cfg.newPayloadCacheSize
    ensures var after :=
            Lru.Peek(Run(cfg, m, steps).value.shared.newPayload, hash); after.Some? && after.value.status == reply
  {
    var ops := PayloadOpsOf(cfg, m, steps).verdicts;
    RunPerformsPayloadOps(cfg, m, steps);
    assert {} + Lru.Others(ops, hash) == Lru.Others(ops, hash);
    VerdictOpsHeld(m.shared.newPayload, ops, hash, reply, {});
  }

  // ----- parents --------------------------------------------------------------------------------

  /** What is remembered of a payload is not described anew while it stays. */
  lemma {:induction false} InfoIsPreserved(cfg: Config, sh: Shared, job: Job, pc: Pc, hash: Hash, info: PayloadInfo)
    requires Fits(job, pc) && LockOf(pc).Some? && Lru.Peek(sh.builder.info, hash) == Some(info)
    ensures Lru.Preserves(SectionPayloadOps(cfg, sh, job, pc).info, hash, info)
  {
  }

  lemma {:induction false} AllOthers(a: seq<Lru.Op<Hash, PayloadInfo>>, b: seq<Lru.Op<Hash, PayloadInfo>>, hash: Hash,
      others: set<Hash>)
    ensures others + Lru.Others(a, hash) + Lru.Others(b, hash) == others + Lru.Others(a + b, hash)
    ensures |others + Lru.Others(a, hash)| <= |others + Lru.Others(a + b, hash)|
  {
    OthersConcat(a, b, hash);
    Lru.SubsetSize(others + Lru.Others(a, hash), others + Lru.Others(a + b, hash));
  }

  lemma {:induction false} InfoHeld(cfg: Config, m: Machine, steps: seq<Step>, hash: Hash, info: PayloadInfo,
      others: set<Hash>)
    requires CachesOk(m.shared) && Run(cfg, m, steps).Some? && Lru.Held(m.shared.builder.info, hash, info, others)
    requires |others + Lru.Others(PayloadOpsOf(cfg, m, steps).info, hash)| < m.shared.builder.info.capacity
    ensures Lru.Held(Run(cfg, m, steps).value.shared.builder.info, hash, info,
                     others + Lru.Others(PayloadOpsOf(cfg, m, steps).info, hash))
    decreases |steps|
  {
    if steps != [] {
      var init, last := steps[..|steps| - 1], steps[|steps| - 1];
      var n := Run(cfg, m, init).value;
      var soFar, now := PayloadOpsOf(cfg, m, init).info, StepPayloadOps(cfg, n, last).info;
      AllOthers(soFar, now, hash, others);
      InfoHeld(cfg, m, init, hash, info, others);
      RunKeepsCaches(cfg, m, init);
      InfoStepHeld(cfg, n, last, hash, info, others + Lru.Others(soFar, hash));
    } else {
      assert others + Lru.Others(PayloadOpsOf(cfg, m, steps).info, hash) == others;
    }
  }

  lemma {:induction false} InfoStepHeld(cfg: Config, m: Machine, step: Step, hash: Hash, info: PayloadInfo,
      others: set<Hash>)
    requires CachesOk(m.shared) && Enabled(m, step) && Lru.Held(m.shared.builder.info, hash, info, others)
    requires |others + Lru.Others(StepPayloadOps(cfg, m, step).info, hash)| < m.shared.builder.info.capacity
    ensures Lru.Held(Apply(cfg, m, step).shared.builder.info, hash, info,
                     others + Lru.Others(StepPayloadOps(cfg, m, step).info, hash))
  {
    StepPerformsPayloadOps(cfg, m, step);
    if step.Proceed? {
      InfoIsPreserved(cfg, m.shared, m.tasks[step.tid].job, m.tasks[step.tid].pc, hash, info);
    }
    Lru.WorkingSet(m.shared.builder.info, hash, info, others, StepPayloadOps(cfg, m, step).info);
  }

  /** What building on a parent takes beside the parent: withdrawals, a fork with payloads, and a gas target. */
  predicate Buildable(cfg: Config, attributes: PayloadAttributes, info: PayloadInfo) {
    && TimestampToSlot(cfg, attributes.timestamp).Some?
    && cfg.forkAtSlot(TimestampToSlot(cfg, attributes.timestamp).value) in {Capella, Deneb, Electra}
    && !attributes.AttributesV1? && info.gasLimit >= 2
  }

  lemma {:induction false} KnownParent(cfg: Config, b: Builder, key: Key, info: PayloadInfo)
    requires Lru.Peek(b.info, key.0) == Some(info) && TimestampToSlot(cfg, key.1.timestamp).Some?
    ensures Register(cfg, b, key).answer != Rejected(UnknownParent)
    ensures Buildable(cfg, key.1, info) ==> Register(cfg, b, key).answer.Registered?
  {
    RegistersExactlyWhen(cfg, b, key);
  }

  lemma {:induction false} InfoKept(cfg: Settings, m: Machine, tracker: nat, tracked: Machine, steps: seq<Step>,
      n: Machine)
    returns (info: PayloadInfo)
    requires Reachable(cfg, m) && tracker in m.tasks && m.tasks[tracker].inside && m.tasks[tracker].pc.RegisterPayload?
    requires tracked == Apply(cfg, m, Proceed(tracker)) && Run(cfg, tracked, steps) == Some(n)
    requires |Lru.Others(PayloadOpsOf(cfg, tracked, steps).info, m.tasks[tracker].job.request.payload.blockHash)|
             < cfg.payloadBuilderCacheSize
    ensures var hash := m.tasks[tracker].job.request.payload.blockHash;
            Lru.Peek(tracked.shared.builder.info, hash) == Some(info) == Lru.Peek(n.shared.builder.info, hash)
  {
    var payload := m.tasks[tracker].job.request.payload;
    ReachableStep(cfg, m, Proceed(tracker));
    ReachableCachesOk(cfg, m);
    ReachableCachesOk(cfg, tracked);
    info := TrackedAtFront(cfg, m.shared.builder, payload);
    var ops := PayloadOpsOf(cfg, tracked, steps).info;
    assert {} + Lru.Others(ops, payload.blockHash) == Lru.Others(ops, payload.blockHash);
    InfoHeld(cfg, tracked, steps, payload.blockHash, info, {});
  }

  lemma {:induction false} TrackedAtFront(cfg: Config, b: Builder, payload: ExecutionPayload)
      returns (info: PayloadInfo)
    requires CachesWellFormed(b)
    ensures Lru.Held(Record(b, payload).info, payload.blockHash, info, {})
  {
    Lru.GetOrInsertFacts(b.info, payload.blockHash, InfoOf(payload));
    info := Lru.Peek(Record(b, payload).info, payload.blockHash).value;
  }

  /**
   * No parent forgotten too soon. Once a payload was passed on to the builder, a controller's update to
   * it with attributes, for a slot of the chain, is never refused for an unknown parent, until as many
   * other hashes have been touched as the builder remembers; and if it can be built upon, the update is
   * given an identifier.
   */
  lemma {:induction false} ParentKept(cfg: Settings, m: Machine, tracker: nat, tracked: Machine, steps: seq<Step>,
      n: Machine, controller: nat)
    returns (info: PayloadInfo)
    requires Reachable(cfg, m) && tracker in m.tasks && m.tasks[tracker].inside && m.tasks[tracker].pc.RegisterPayload?
    requires tracked == Apply(cfg, m, Proceed(tracker)) && Run(cfg, tracked, steps) == Some(n)
    requires |Lru.Others(PayloadOpsOf(cfg, tracked, steps).info, m.tasks[tracker].job.request.payload.blockHash)|
             < cfg.payloadBuilderCacheSize
    requires controller in n.tasks && n.tasks[controller].job.ControllerFcu? && n.tasks[controller].inside
    requires n.tasks[controller].pc.Attributes?
    requires n.tasks[controller].job.fcu.head == m.tasks[tracker].job.request.payload.blockHash
    requires TimestampToSlot(cfg, n.tasks[controller].job.attributes.value.timestamp).Some?
    ensures Lru.Peek(tracked.shared.builder.info, m.tasks[tracker].job.request.payload.blockHash) == Some(info)
    ensures var answer := Apply(cfg, n, Proceed(controller)).tasks[controller].pc.outcome.payloadId;
            && answer != Refused(UnknownParent)
            && (Buildable(cfg, n.tasks[controller].job.attributes.value, info) ==> answer.Given?)
  {
    info := InfoKept(cfg, m, tracker, tracked, steps, n);
    KnownParent(cfg, n.shared.builder, (n.tasks[controller].job.fcu.head, n.tasks[controller].job.attributes.value),
        info);
  }
}
