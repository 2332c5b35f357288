/**
 * Nothing that was published is lost too soon. Each step of a run amounts to at most one operation
 * on each cache, so the working-set property of a single cache carries over to whole runs.
 */
module Retention {
  import opened Types
  import opened PayloadIds
  import opened PayloadBuilding
  import opened Protocol
  import opened FcuVerdicts
  import opened Lookups
  import Locks
  import Lru

  // ----- the operations of a run on each cache -------------------------------------------

  datatype Ops = Ops(
    fcu: seq<Lru.Op<Forkchoice, PayloadStatus>>,
    justified: seq<Lru.Op<Hash, ()>>,
    finalized: seq<Lru.Op<Hash, ()>>,
    attributes: seq<Lru.Op<Key, PayloadId>>,
    payloads: seq<Lru.Op<PayloadId, ExecutionPayload>>)

  const IDLE: Ops := Ops([], [], [], [], [])

  function Then(a: Ops, b: Ops): Ops {
    Ops(a.fcu + b.fcu, a.justified + b.justified, a.finalized + b.finalized, a.attributes + b.attributes,
        a.payloads + b.payloads)
  }

  /** A read counts as a use only if it hits. */
  function UsedIfResident<K(==), V>(cache: Lru.Cache<K, V>, key: K): seq<Lru.Op<K, V>> {
    if Lru.Contains(cache, key) then [Lru.Used(key)] else []
  }

  function SectionOps(cfg: Config, sh: Shared, job: Job, pc: Pc): Ops
    requires Fits(job, pc) && LockOf(pc).Some?
  {
    match pc
    case Probe(_, _) => if cfg.matching.Exact? then IDLE.(fcu := UsedIfResident(sh.fcu, job.fcu)) else IDLE
    case Publish(reply) =>
      var hit := Lru.Peek(sh.fcu, job.fcu);
      IDLE.(fcu := if hit.Some? && IsDefinite(hit.value) then [Lru.Used(job.fcu)] else [Lru.Written(job.fcu, reply)])
    case RecordJustified(_) => IDLE.(justified := [Lru.Written(job.fcu.safe, ())])
    case RecordFinalized(_) => IDLE.(finalized := [Lru.Written(job.fcu.finalized, ())])
    case Attributes(_) =>
      var key := (job.fcu.head, job.attributes.value);
      var build := if job.ControllerFcu? then Register(cfg, sh.builder, key).build else None;
      if build.Some? then
        IDLE.(attributes := [Lru.Written(key, build.value.id)],
              payloads := [Lru.Written(build.value.id, build.value.payload)])
      else if job.ControllerFcu? && TimestampToSlot(cfg, key.1.timestamp).None? then IDLE
      else IDLE.(attributes := UsedIfResident(sh.builder.attributes, key))
    case FetchFromBuilder => IDLE.(payloads := UsedIfResident(sh.builder.payloads, job.id))
    case _ => IDLE
  }

  ghost function StepOps(cfg: Config, m: Machine, step: Step): Ops
    requires Enabled(m, step)
  {
    if step.Proceed? then SectionOps(cfg, m.shared, m.tasks[step.tid].job, m.tasks[step.tid].pc) else IDLE
  }

  ghost function OpsOf(cfg: Config, m: Machine, steps: seq<Step>): Ops
    requires Run(cfg, m, steps).Some?
    decreases |steps|
  {
    if steps == [] then IDLE
    else
      var init := steps[..|steps| - 1];
      Then(OpsOf(cfg, m, init), StepOps(cfg, Run(cfg, m, init).value, steps[|steps| - 1]))
  }

  lemma {:induction false} ReplayOne<K, V>(cache: Lru.Cache<K, V>, op: Lru.Op<K, V>)
    ensures Lru.Replay(cache, [op]) == Lru.Perform(cache, op)
    ensures Lru.Replay(cache, []) == cache
  {
    assert [op][..0] == [];
  }

  /** The operations listed for a critical section are exactly what it does. */
  lemma {:induction false} SectionPerformsOps(cfg: Config, sh: Shared, job: Job, pc: Pc)
    requires Fits(job, pc) && LockOf(pc).Some?
    ensures var after, ops := CriticalSection(cfg, sh, job, pc).shared, SectionOps(cfg, sh, job, pc);
            && after.fcu == Lru.Replay(sh.fcu, ops.fcu)
            && after.justified == Lru.Replay(sh.justified, ops.justified)
            && after.finalized == Lru.Replay(sh.finalized, ops.finalized)
            && after.builder.attributes == Lru.Replay(sh.builder.attributes, ops.attributes)
            && after.builder.payloads == Lru.Replay(sh.builder.payloads, ops.payloads)
  {
    match pc
    case Probe(_, _) => ReplayOne(sh.fcu, Lru.Used(job.fcu));
    case Publish(reply) =>
      ReplayOne(sh.fcu, Lru.Used(job.fcu));
      ReplayOne(sh.fcu, Lru.Written(job.fcu, reply));
    case RecordJustified(_) => ReplayOne(sh.justified, Lru.Written(job.fcu.safe, ()));
    case RecordFinalized(_) => ReplayOne(sh.finalized, Lru.Written(job.fcu.finalized, ()));
    case Attributes(_) =>
      var key := (job.fcu.head, job.attributes.value);
      ReplayOne(sh.builder.attributes, Lru.Used(key));
      var build := Register(cfg, sh.builder, key).build;
      if build.Some? {
        ReplayOne(sh.builder.attributes, Lru.Written(key, build.value.id));
        ReplayOne(sh.builder.payloads, Lru.Written(build.value.id, build.value.payload));
      }
    case FetchFromBuilder => ReplayOne(sh.builder.payloads, Lru.Used(job.id));
    case _ =>
  }

  lemma {:induction false} StepPerformsOps(cfg: Config, m: Machine, step: Step)
    requires Enabled(m, step)
    ensures var after, ops := Apply(cfg, m, step).shared, StepOps(cfg, m, step);
            && after.fcu == Lru.Replay(m.shared.fcu, ops.fcu)
            && after.justified == Lru.Replay(m.shared.justified, ops.justified)
            && after.finalized == Lru.Replay(m.shared.finalized, ops.finalized)
            && after.builder.attributes == Lru.Replay(m.shared.builder.attributes, ops.attributes)
            && after.builder.payloads == Lru.Replay(m.shared.builder.payloads, ops.payloads)
  {
    StepShared(cfg, m, step);
    if step.Proceed? {
      SectionPerformsOps(cfg, m.shared, m.tasks[step.tid].job, m.tasks[step.tid].pc);
    }
  }

  lemma {:induction false} OthersConcat<K, V>(a: seq<Lru.Op<K, V>>, b: seq<Lru.Op<K, V>>, key: K)
    ensures Lru.Others(a + b, key) == Lru.Others(a, key) + Lru.Others(b, key)
  {
  }

  // ----- what stays resident --------------------------------------------------------------

  lemma {:induction false} ReplayConcat<K, V>(cache: Lru.Cache<K, V>, a: seq<Lru.Op<K, V>>, b: seq<Lru.Op<K, V>>)
    ensures Lru.Replay(cache, a + b) == Lru.Replay(Lru.Replay(cache, a), b)
    decreases |b|
  {
    if b == [] {
      assert a + b == a;
    } else {
      ReplayConcat(cache, a, b[..|b| - 1]);
      assert (a + b)[..|a + b| - 1] == a + b[..|b| - 1];
    }
  }

  /** A whole run does to each cache exactly what its operations say. */
  lemma {:induction false} RunPerformsOps(cfg: Config, m: Machine, steps: seq<Step>)
    requires Run(cfg, m, steps).Some?
    ensures var after, ops := Run(cfg, m, steps).value.shared, OpsOf(cfg, m, steps);
            && after.fcu == Lru.Replay(m.shared.fcu, ops.fcu)
            && after.justified == Lru.Replay(m.shared.justified, ops.justified)
            && after.finalized == Lru.Replay(m.shared.finalized, ops.finalized)
            && after.builder.attributes == Lru.Replay(m.shared.builder.attributes, ops.attributes)
            && after.builder.payloads == Lru.Replay(m.shared.builder.payloads, ops.payloads)
    decreases |steps|
  {
    if steps != [] {
      var init, last := steps[..|steps| - 1], steps[|steps| - 1];
      RunPerformsOps(cfg, m, init);
      var n := Run(cfg, m, init).value;
      var soFar, now := OpsOf(cfg, m, init), StepOps(cfg, n, last);
      StepPerformsOps(cfg, n, last);
      ReplayConcat(m.shared.fcu, soFar.fcu, now.fcu);
      ReplayConcat(m.shared.justified, soFar.justified, now.justified);
      ReplayConcat(m.shared.finalized, soFar.finalized, now.finalized);
      ReplayConcat(m.shared.builder.attributes, soFar.attributes, now.attributes);
      ReplayConcat(m.shared.builder.payloads, soFar.payloads, now.payloads);
    }
  }

  /** An update writes only over what is not definite. */
  lemma {:induction false} DefiniteIsNotWritten(cfg: Config, sh: Shared, job: Job, pc: Pc, fcu: Forkchoice,
      status: PayloadStatus)
    requires Fits(job, pc) && LockOf(pc).Some? && IsDefinite(status) && Lru.Peek(sh.fcu, fcu) == Some(status)
    ensures Lru.Preserves(SectionOps(cfg, sh, job, pc).fcu, fcu, status)
  {
  }

  lemma {:induction false} FcuStepHeld(cfg: Config, m: Machine, step: Step, fcu: Forkchoice, status: PayloadStatus,
      others: set<Forkchoice>)
    requires CachesOk(m.shared) && Enabled(m, step) && IsDefinite(status)
    requires Lru.Held(m.shared.fcu, fcu, status, others)
    requires |others + Lru.Others(StepOps(cfg, m, step).fcu, fcu)| < m.shared.fcu.capacity
    ensures Lru.Held(Apply(cfg, m, step).shared.fcu, fcu, status, others + Lru.Others(StepOps(cfg, m, step).fcu, fcu))
  {
    StepPerformsOps(cfg, m, step);
    if step.Proceed? {
      DefiniteIsNotWritten(cfg, m.shared, m.tasks[step.tid].job, m.tasks[step.tid].pc, fcu, status);
    }
    Lru.WorkingSet(m.shared.fcu, fcu, status, others, StepOps(cfg, m, step).fcu);
  }

  /** A definite status is never overwritten, so it is lost only by eviction. */
  lemma {:induction false} FcuHeld(cfg: Config, m: Machine, steps: seq<Step>, fcu: Forkchoice, status: PayloadStatus,
      others: set<Forkchoice>)
    requires CachesOk(m.shared) && Run(cfg, m, steps).Some?
    requires IsDefinite(status) && Lru.Held(m.shared.fcu, fcu, status, others)
    requires |others + Lru.Others(OpsOf(cfg, m, steps).fcu, fcu)| < m.shared.fcu.capacity
    ensures Lru.Held(Run(cfg, m, steps).value.shared.fcu, fcu, status,
            others + Lru.Others(OpsOf(cfg, m, steps).fcu, fcu))
    decreases |steps|
  {
    if steps != [] {
      var init, last := steps[..|steps| - 1], steps[|steps| - 1];
      var n := Run(cfg, m, init).value;
      var soFar, now := OpsOf(cfg, m, init).fcu, StepOps(cfg, n, last).fcu;
      var before, all := others + Lru.Others(soFar, fcu), others + Lru.Others(OpsOf(cfg, m, steps).fcu, fcu);
      OthersConcat(soFar, now, fcu);
      assert before + Lru.Others(now, fcu) == all;
      Lru.SubsetSize(before, all);
      FcuHeld(cfg, m, init, fcu, status, others);
      RunKeepsCaches(cfg, m, init);
      FcuStepHeld(cfg, n, last, fcu, status, before);
    }
  }

  /** There is only one value to write to a set of hashes. */
  lemma {:induction false} UnitPreserved(ops: seq<Lru.Op<Hash, ()>>, hash: Hash)
    ensures Lru.Preserves(ops, hash, ())
  {
    forall op | op in ops && op.Written? && op.key == hash ensures op.value == () {
    }
  }

  lemma {:induction false} JustifiedHeld(cfg: Config, m: Machine, steps: seq<Step>, hash: Hash, others: set<Hash>)
    requires CachesOk(m.shared) && Run(cfg, m, steps).Some? && Lru.Held(m.shared.justified, hash, (), others)
    requires |others + Lru.Others(OpsOf(cfg, m, steps).justified, hash)| < m.shared.justified.capacity
    ensures Lru.Held(Run(cfg, m, steps).value.shared.justified, hash, (),
            others + Lru.Others(OpsOf(cfg, m, steps).justified, hash))
  {
    RunPerformsOps(cfg, m, steps);
    UnitPreserved(OpsOf(cfg, m, steps).justified, hash);
    Lru.WorkingSet(m.shared.justified, hash, (), others, OpsOf(cfg, m, steps).justified);
  }

  lemma {:induction false} FinalizedHeld(cfg: Config, m: Machine, steps: seq<Step>, hash: Hash, others: set<Hash>)
    requires CachesOk(m.shared) && Run(cfg, m, steps).Some? && Lru.Held(m.shared.finalized, hash, (), others)
    requires |others + Lru.Others(OpsOf(cfg, m, steps).finalized, hash)| < m.shared.finalized.capacity
    ensures Lru.Held(Run(cfg, m, steps).value.shared.finalized, hash, (),
            others + Lru.Others(OpsOf(cfg, m, steps).finalized, hash))
  {
    RunPerformsOps(cfg, m, steps);
    UnitPreserved(OpsOf(cfg, m, steps).finalized, hash);
    Lru.WorkingSet(m.shared.finalized, hash, (), others, OpsOf(cfg, m, steps).finalized);
  }

  // ----- no lost publication: exact matching ------------------------------------------------

  /**
   * Exact matching. Once a controller's update leaves a triple definite, every client that probes
   * for it later is given that same status, until `fcu_cache_size` distinct other triples have been
   * touched. The synthetic answer is indefinite, so it is never given.
   */
  lemma {:induction false} ExactPublicationKept(cfg: Settings, m: Machine, publisher: nat, status: PayloadStatus,
      steps: seq<Step>, n: Machine, client: nat)
    requires cfg.matching.Exact? && Reachable(cfg, m)
    requires publisher in m.tasks && m.tasks[publisher].pc.Publish? && m.tasks[publisher].inside
    requires var published, fcu := Apply(cfg, m, Proceed(publisher)), m.tasks[publisher].job.fcu;
             && Lru.Peek(published.shared.fcu, fcu) == Some(status) && IsDefinite(status)
             && Run(cfg, published, steps) == Some(n)
             && |Lru.Others(OpsOf(cfg, published, steps).fcu, fcu)| < cfg.fcuCacheSize
             && client in n.tasks && n.tasks[client].job.ClientFcu? && n.tasks[client].job.fcu == fcu
             && n.tasks[client].pc.Probe? && n.tasks[client].inside
    ensures Apply(cfg, n, Proceed(client)).tasks[client].pc == AfterStatus(cfg, n.tasks[client].job, status)
    ensures status != SYNTHETIC_SYNCING
  {
    var published, fcu := Apply(cfg, m, Proceed(publisher)), m.tasks[publisher].job.fcu;
    ReachableCachesOk(cfg, m);
    PublishedAtFront(cfg, m.shared, m.tasks[publisher].job, m.tasks[publisher].pc.reply);
    ReachableStep(cfg, m, Proceed(publisher));
    FcuKeptFromFront(cfg, published, steps, fcu, status);
    ExactProbeFinds(cfg, n, client, status);
  }

  lemma {:induction false} FcuKeptFromFront(cfg: Settings, m: Machine, steps: seq<Step>, fcu: Forkchoice,
      status: PayloadStatus)
    requires Reachable(cfg, m) && Run(cfg, m, steps).Some?
    requires IsDefinite(status) && Lru.Held(m.shared.fcu, fcu, status, {})
    requires |Lru.Others(OpsOf(cfg, m, steps).fcu, fcu)| < cfg.fcuCacheSize
    ensures Lru.Peek(Run(cfg, m, steps).value.shared.fcu, fcu) == Some(status)
  {
    ReachableCachesOk(cfg, m);
    assert {} + Lru.Others(OpsOf(cfg, m, steps).fcu, fcu) == Lru.Others(OpsOf(cfg, m, steps).fcu, fcu);
    FcuHeld(cfg, m, steps, fcu, status, {});
  }

  lemma {:induction false} ExactProbeFinds(cfg: Config, n: Machine, client: nat, status: PayloadStatus)
    requires cfg.matching.Exact? && client in n.tasks && n.tasks[client].job.ClientFcu?
    requires n.tasks[client].pc.Probe? && n.tasks[client].inside
    requires Lru.Peek(n.shared.fcu, n.tasks[client].job.fcu) == Some(status) && IsDefinite(status)
    ensures Apply(cfg, n, Proceed(client)).tasks[client].pc == AfterStatus(cfg, n.tasks[client].job, status)
  {
  }

  /** After an update the triple is at the front, with the status that was definite already or else the reply. */
  lemma {:induction false} PublishedAtFront(cfg: Config, sh: Shared, job: Job, reply: PayloadStatus)
    requires CachesOk(sh) && job.ControllerFcu?
    ensures var after := CriticalSection(cfg, sh, job, Publish(reply)).shared.fcu;
            var kept := Lru.Contains(sh.fcu, job.fcu) && IsDefinite(Lru.Peek(sh.fcu, job.fcu).value);
            Lru.Held(after, job.fcu, if kept then Lru.Peek(sh.fcu, job.fcu).value else reply, {})
  {
    Lru.PutFacts(sh.fcu, job.fcu, reply);
  }

  lemma {:induction false} RecordedAtFront(cfg: Config, sh: Shared, job: Job, pc: Pc)
    requires CachesOk(sh) && job.ControllerFcu? && Fits(job, pc)
    ensures pc.RecordJustified? ==> Lru.Held(CriticalSection(cfg, sh, job, pc).shared.justified, job.fcu.safe, (), {})
    ensures pc.RecordFinalized? ==>
            Lru.Held(CriticalSection(cfg, sh, job, pc).shared.finalized, job.fcu.finalized, (), {})
  {
    if pc.RecordJustified? {
      Lru.PutFacts(sh.justified, job.fcu.safe, ());
    } else if pc.RecordFinalized? {
      Lru.PutFacts(sh.finalized, job.fcu.finalized, ());
    }
  }

  // ----- no lost publication: loose matching ---------------------------------------------------

  /** With no triple of the same head ahead of it, a held triple is the first match for its head. */
  lemma {:induction false} HeldIsFirst(entries: seq<(Forkchoice, PayloadStatus)>, fcu: Forkchoice)
    requires Lru.Find(entries, fcu).Some?
    requires forall other :: other in Lru.Ahead(entries, fcu) ==> other.head != fcu.head
    ensures FirstWithHead(entries, fcu.head) == Lru.Find(entries, fcu)
  {
    if entries[0].0 != fcu {
      HeldIsFirst(entries[1..], fcu);
    }
  }

  /** What one finished publication and the three stretches of run around it must satisfy. */
  ghost predicate LooseWindow(cfg: Config, fcu: Forkchoice, first: Ops, second: Ops, third: Ops) {
    var triples := Lru.Others(first.fcu, fcu) + Lru.Others(second.fcu, fcu) + Lru.Others(third.fcu, fcu);
    && |triples| < cfg.fcuCacheSize
    && (forall other :: other in triples ==> other.head != fcu.head)
    && |Lru.Others(second.justified, fcu.safe) + Lru.Others(third.justified, fcu.safe)| < cfg.justifiedBlockCacheSize
    && |Lru.Others(third.finalized, fcu.finalized)| < cfg.justifiedBlockCacheSize
  }

  /**
   * Loose matching. A controller publishes VALID for a triple, then records its safe and its
   * finalized hash, with arbitrary steps in between and after. While no other triple with that head
   * is touched, and fewer other triples, safe hashes and finalized hashes than the caches hold, every
   * check of a client probing for the triple succeeds and carries that same status to the end.
   */
  lemma {:induction false} LoosePublicationKept(cfg: Settings, m0: Machine, publisher: nat, m1: Machine,
      first: seq<Step>, m2: Machine, m3: Machine, second: seq<Step>, m4: Machine, m5: Machine, third: seq<Step>,
      n: Machine, client: nat)
    requires cfg.matching.Loose? && Reachable(cfg, m0)
    requires Publishes(cfg, m0, publisher, m1, first, m2, m3, second, m4, m5)
    requires Run(cfg, m5, third) == Some(n)
    requires LooseWindow(cfg, m0.tasks[publisher].job.fcu, OpsOf(cfg, m1, first), OpsOf(cfg, m3, second),
             OpsOf(cfg, m5, third))
    requires client in n.tasks && n.tasks[client].job.ClientFcu? && n.tasks[client].inside
    requires n.tasks[client].job.fcu == m0.tasks[publisher].job.fcu
    ensures var reply, task := m0.tasks[publisher].pc.reply, n.tasks[client];
            var next := Apply(cfg, n, Proceed(client)).tasks[client].pc;
            && CachedFcu(cfg, n.shared, task.job.fcu, true) == Some(reply)
            && (task.pc.Probe? ==> next == ProbeJustified(task.pc.definiteOnly, task.pc.at, reply))
            && (task.pc.ProbeJustified? ==> next == ProbeFinalized(task.pc.definiteOnly, task.pc.at, reply))
            && (task.pc.ProbeFinalized? ==> next == AfterStatus(cfg, task.job, reply))
  {
    WindowKeeps(cfg, m0, publisher, m1, first, m2, m3, second, m4, m5, third, n);
    ReachableExtends(cfg, m5, third, n);
    ReachableSnapshots(cfg, n);
    ClientChecks(cfg, n, client, m0.tasks[publisher].pc.reply);
  }

  lemma {:induction false} WindowKeeps(cfg: Settings, m0: Machine, publisher: nat, m1: Machine, first: seq<Step>,
      m2: Machine, m3: Machine, second: seq<Step>, m4: Machine, m5: Machine, third: seq<Step>, n: Machine)
    requires Reachable(cfg, m0) && Publishes(cfg, m0, publisher, m1, first, m2, m3, second, m4, m5)
    requires Run(cfg, m5, third) == Some(n)
    requires LooseWindow(cfg, m0.tasks[publisher].job.fcu, OpsOf(cfg, m1, first), OpsOf(cfg, m3, second),
             OpsOf(cfg, m5, third))
    ensures Reachable(cfg, m5)
    ensures var fcu := m0.tasks[publisher].job.fcu;
            && FirstWithHead(n.shared.fcu.entries, fcu.head) == Some(m0.tasks[publisher].pc.reply)
            && Lru.Contains(n.shared.justified, fcu.safe)
            && Lru.Contains(n.shared.finalized, fcu.finalized)
  {
    PublishingFacts(cfg, m0, publisher, m1, first, m2, m3, second, m4, m5);
    HeldThrough(cfg, m0.tasks[publisher].job.fcu, m0.tasks[publisher].pc.reply, m1, first, m2, m3, second, m4, m5,
        third, n);
  }

  lemma {:induction false} HeldThrough(cfg: Settings, fcu: Forkchoice, reply: PayloadStatus, m1: Machine,
      first: seq<Step>, m2: Machine, m3: Machine, second: seq<Step>, m4: Machine, m5: Machine, third: seq<Step>,
      n: Machine)
    requires Reachable(cfg, m1) && Reachable(cfg, m3) && Reachable(cfg, m5) && IsDefinite(reply)
    requires Run(cfg, m1, first) == Some(m2) && m3.shared.fcu == m2.shared.fcu
    requires Run(cfg, m3, second) == Some(m4) && m5.shared.fcu == m4.shared.fcu
             && m5.shared.justified == m4.shared.justified
    requires Run(cfg, m5, third) == Some(n)
    requires Lru.Held(m1.shared.fcu, fcu, reply, {})
    requires Lru.Held(m3.shared.justified, fcu.safe, (), {}) && Lru.Held(m5.shared.finalized, fcu.finalized, (), {})
    requires LooseWindow(cfg, fcu, OpsOf(cfg, m1, first), OpsOf(cfg, m3, second), OpsOf(cfg, m5, third))
    ensures FirstWithHead(n.shared.fcu.entries, fcu.head) == Some(reply)
    ensures Lru.Contains(n.shared.justified, fcu.safe) && Lru.Contains(n.shared.finalized, fcu.finalized)
  {
    TripleKept(cfg, fcu, reply, m1, first, m3, second, m5, third, n);
    HashesKept(cfg, fcu, m3, second, m5, third, n);
    HeldIsFirst(n.shared.fcu.entries, fcu);
  }

  /** A controller has the lock to cache a VALID that is news: nothing definite is there yet. */
  predicate AboutToPublish(m: Machine, publisher: nat) {
    && publisher in m.tasks && m.tasks[publisher].inside && m.tasks[publisher].job.ControllerFcu?
    && m.tasks[publisher].pc.Publish? && m.tasks[publisher].pc.reply.verdict.Valid?
    && (var hit := Lru.Peek(m.shared.fcu, m.tasks[publisher].job.fcu); hit.None? || !IsDefinite(hit.value))
  }

  predicate AboutToRecordSafe(m: Machine, publisher: nat) {
    publisher in m.tasks && m.tasks[publisher].inside && m.tasks[publisher].pc.RecordJustified?
  }

  function RecordAfter(pc: Pc): Pc
    requires pc.Publish? || pc.RecordJustified?
  {
    if pc.Publish? then RecordJustified(pc.reply) else RecordFinalized(pc.reply)
  }

  /**
   * The publisher runs its section in `m`, giving `after`; in `n`, some steps later, it is granted the
   * lock for its next record.
   */
  ghost predicate Records(cfg: Config, m: Machine, publisher: nat, after: Machine, steps: seq<Step>, n: Machine) {
    && publisher in m.tasks && m.tasks[publisher].inside
    && (m.tasks[publisher].pc.Publish? || m.tasks[publisher].pc.RecordJustified?)
    && after == Apply(cfg, m, Proceed(publisher))
    && after.tasks[publisher].pc == RecordAfter(m.tasks[publisher].pc)
    && Run(cfg, after, steps) == Some(n)
    && publisher in n.tasks
        && n.tasks[publisher] == Task(m.tasks[publisher].job, RecordAfter(m.tasks[publisher].pc), true)
  }

  /** The publisher caches VALID (m0 to m1), records the safe hash (m2 to m3), then the finalized hash (m4 to m5). */
  ghost predicate Publishes(cfg: Config, m0: Machine, publisher: nat, m1: Machine, first: seq<Step>, m2: Machine,
      m3: Machine, second: seq<Step>, m4: Machine, m5: Machine)
  {
    && AboutToPublish(m0, publisher)
    && Records(cfg, m0, publisher, m1, first, m2)
    && Records(cfg, m2, publisher, m3, second, m4)
    && m5 == Apply(cfg, m4, Proceed(publisher))
  }

  lemma {:induction false} FirstRecord(cfg: Config, m: Machine, publisher: nat)
    returns (after: Machine, steps: seq<Step>, n: Machine)
    requires Locks.Exclusive(m) && AboutToPublish(m, publisher)
    ensures Records(cfg, m, publisher, after, steps, n) && |steps| <= 2
    ensures Locks.Exclusive(n) && AboutToRecordSafe(n, publisher)
  {
    after := Apply(cfg, m, Proceed(publisher));
    Locks.StepKeepsExclusive(cfg, m, Proceed(publisher));
    steps, n := Locks.Granted(cfg, after, publisher);
  }

  lemma {:induction false} SecondRecord(cfg: Config, m: Machine, publisher: nat)
    returns (after: Machine, steps: seq<Step>, n: Machine)
    requires Locks.Exclusive(m) && AboutToRecordSafe(m, publisher)
    ensures Records(cfg, m, publisher, after, steps, n) && |steps| <= 2
  {
    after := Apply(cfg, m, Proceed(publisher));
    Locks.StepKeepsExclusive(cfg, m, Proceed(publisher));
    steps, n := Locks.Granted(cfg, after, publisher);
  }

  /**
   * A publication that has begun can always be completed: from every reachable state in which a
   * controller is about to cache a VALID that is news, at most four steps, each by a task that holds
   * a lock or is granted one, stand between its three updates.
   */
  lemma {:induction false} PublicationCompletes(cfg: Settings, m0: Machine, publisher: nat)
    returns (m1: Machine, first: seq<Step>, m2: Machine, m3: Machine, second: seq<Step>, m4: Machine, m5: Machine)
    requires Reachable(cfg, m0) && AboutToPublish(m0, publisher)
    ensures Publishes(cfg, m0, publisher, m1, first, m2, m3, second, m4, m5)
    ensures |first| + |second| <= 4
  {
    Locks.MutualExclusion(cfg, m0);
    m1, first, m2 := FirstRecord(cfg, m0, publisher);
    m3, second, m4 := SecondRecord(cfg, m2, publisher);
    m5 := Apply(cfg, m4, Proceed(publisher));
  }

  lemma {:induction false} PublishingFacts(cfg: Settings, m0: Machine, publisher: nat, m1: Machine, first: seq<Step>,
      m2: Machine, m3: Machine, second: seq<Step>, m4: Machine, m5: Machine)
    requires Reachable(cfg, m0) && Publishes(cfg, m0, publisher, m1, first, m2, m3, second, m4, m5)
    ensures Reachable(cfg, m1) && Reachable(cfg, m3) && Reachable(cfg, m5)
    ensures m3.shared.fcu == m2.shared.fcu && m5.shared.fcu == m4.shared.fcu
            && m5.shared.justified == m4.shared.justified
    ensures var fcu := m0.tasks[publisher].job.fcu;
            && Lru.Held(m1.shared.fcu, fcu, m0.tasks[publisher].pc.reply, {})
            && Lru.Held(m3.shared.justified, fcu.safe, (), {})
            && Lru.Held(m5.shared.finalized, fcu.finalized, (), {})
  {
    RecordsFacts(cfg, m0, publisher, m1, first, m2);
    RecordsFacts(cfg, m2, publisher, m3, second, m4);
    LastRecordFacts(cfg, m4, publisher, m5);
  }

  /** Publishing leaves its triple, and recording its safe hash, at the front. */
  lemma {:induction false} RecordsFacts(cfg: Settings, m: Machine, publisher: nat, after: Machine, steps: seq<Step>,
      n: Machine)
    requires Reachable(cfg, m) && Records(cfg, m, publisher, after, steps, n)
    ensures Reachable(cfg, after) && Reachable(cfg, n)
    ensures var job, pc := m.tasks[publisher].job, m.tasks[publisher].pc;
            && (pc.Publish? ==> Lru.Held(after.shared.fcu, job.fcu, pc.reply, {}))
            && (pc.RecordJustified? ==>
                after.shared.fcu == m.shared.fcu && Lru.Held(after.shared.justified, job.fcu.safe, (), {}))
  {
    var job, pc := m.tasks[publisher].job, m.tasks[publisher].pc;
    ReachableCachesOk(cfg, m);
    ReachableStep(cfg, m, Proceed(publisher));
    ReachableExtends(cfg, after, steps, n);
    RecordedAtFront(cfg, m.shared, job, pc);
    if pc.Publish? {
      PublishedAtFront(cfg, m.shared, job, pc.reply);
    }
  }

  lemma {:induction false} LastRecordFacts(cfg: Settings, m: Machine, publisher: nat, after: Machine)
    requires Reachable(cfg, m) && publisher in m.tasks && m.tasks[publisher].inside
             && m.tasks[publisher].pc.RecordFinalized?
    requires after == Apply(cfg, m, Proceed(publisher))
    ensures Reachable(cfg, after)
    ensures after.shared.fcu == m.shared.fcu && after.shared.justified == m.shared.justified
    ensures Lru.Held(after.shared.finalized, m.tasks[publisher].job.fcu.finalized, (), {})
  {
    ReachableCachesOk(cfg, m);
    ReachableStep(cfg, m, Proceed(publisher));
    RecordedAtFront(cfg, m.shared, m.tasks[publisher].job, m.tasks[publisher].pc);
  }

  lemma {:induction false} ClientChecks(cfg: Config, n: Machine, client: nat, reply: PayloadStatus)
    requires cfg.matching.Loose? && SnapshotsHold(cfg, n) && reply.verdict.Valid?
    requires client in n.tasks && n.tasks[client].job.ClientFcu? && n.tasks[client].inside
    requires FirstWithHead(n.shared.fcu.entries, n.tasks[client].job.fcu.head) == Some(reply)
    requires Lru.Contains(n.shared.justified, n.tasks[client].job.fcu.safe)
    requires Lru.Contains(n.shared.finalized, n.tasks[client].job.fcu.finalized)
    ensures var task, next := n.tasks[client], Apply(cfg, n, Proceed(client)).tasks[client].pc;
            && CachedFcu(cfg, n.shared, task.job.fcu, true) == Some(reply)
            && (task.pc.Probe? ==> next == ProbeJustified(task.pc.definiteOnly, task.pc.at, reply))
            && (task.pc.ProbeJustified? ==> next == ProbeFinalized(task.pc.definiteOnly, task.pc.at, reply))
            && (task.pc.ProbeFinalized? ==> next == AfterStatus(cfg, task.job, reply))
  {
  }

  lemma {:induction false} ReachableStep(cfg: Config, m: Machine, step: Step)
    requires Reachable(cfg, m) && Enabled(m, step)
    ensures Reachable(cfg, Apply(cfg, m, step))
  {
    RunSnoc(cfg, m, [], step);
    ReachableExtends(cfg, m, [] + [step], Apply(cfg, m, step));
  }

  lemma {:induction false} TripleKept(cfg: Settings, fcu: Forkchoice, reply: PayloadStatus, m1: Machine,
      first: seq<Step>, m3: Machine, second: seq<Step>, m5: Machine, third: seq<Step>, n: Machine)
    requires Reachable(cfg, m1) && Reachable(cfg, m3) && Reachable(cfg, m5) && IsDefinite(reply)
    requires Run(cfg, m1, first).Some? && Run(cfg, m1, first).value.shared.fcu == m3.shared.fcu
    requires Run(cfg, m3, second).Some? && Run(cfg, m3, second).value.shared.fcu == m5.shared.fcu
    requires Run(cfg, m5, third) == Some(n)
    requires Lru.Held(m1.shared.fcu, fcu, reply, {})
    requires LooseWindow(cfg, fcu, OpsOf(cfg, m1, first), OpsOf(cfg, m3, second), OpsOf(cfg, m5, third))
    ensures Lru.Peek(n.shared.fcu, fcu) == Some(reply)
    ensures forall other :: other in Lru.Ahead(n.shared.fcu.entries, fcu) ==> other.head != fcu.head
  {
    var o1 := Lru.Others(OpsOf(cfg, m1, first).fcu, fcu);
    var o2 := Lru.Others(OpsOf(cfg, m3, second).fcu, fcu);
    var o3 := Lru.Others(OpsOf(cfg, m5, third).fcu, fcu);
    ReachableCachesOk(cfg, m1);
    ReachableCachesOk(cfg, m3);
    ReachableCachesOk(cfg, m5);
    Lru.SubsetSize(o1, o1 + o2 + o3);
    Lru.SubsetSize(o1 + o2, o1 + o2 + o3);
    assert {} + o1 == o1;
    FcuHeld(cfg, m1, first, fcu, reply, {});
    FcuHeld(cfg, m3, second, fcu, reply, o1);
    FcuHeld(cfg, m5, third, fcu, reply, o1 + o2);
  }

  lemma {:induction false} HashesKept(cfg: Settings, fcu: Forkchoice, m3: Machine, second: seq<Step>, m5: Machine,
      third: seq<Step>, n: Machine)
    requires Reachable(cfg, m3) && Reachable(cfg, m5)
    requires Run(cfg, m3, second).Some? && Run(cfg, m3, second).value.shared.justified == m5.shared.justified
    requires Run(cfg, m5, third) == Some(n)
    requires Lru.Held(m3.shared.justified, fcu.safe, (), {}) && Lru.Held(m5.shared.finalized, fcu.finalized, (), {})
    requires |Lru.Others(OpsOf(cfg, m3, second).justified, fcu.safe)
              + Lru.Others(OpsOf(cfg, m5, third).justified, fcu.safe)| < cfg.justifiedBlockCacheSize
    requires |Lru.Others(OpsOf(cfg, m5, third).finalized, fcu.finalized)| < cfg.justifiedBlockCacheSize
    ensures Lru.Contains(n.shared.justified, fcu.safe) && Lru.Contains(n.shared.finalized, fcu.finalized)
  {
    var o2 := Lru.Others(OpsOf(cfg, m3, second).justified, fcu.safe);
    var o3 := Lru.Others(OpsOf(cfg, m5, third).justified, fcu.safe);
    var f3 := Lru.Others(OpsOf(cfg, m5, third).finalized, fcu.finalized);
    ReachableCachesOk(cfg, m3);
    ReachableCachesOk(cfg, m5);
    Lru.SubsetSize(o2, o2 + o3);
    assert {} + o2 == o2 && {} + f3 == f3;
    JustifiedHeld(cfg, m3, second, fcu.safe, {});
    JustifiedHeld(cfg, m5, third, fcu.safe, o2);
    FinalizedHeld(cfg, m5, third, fcu.finalized, {});
  }
}
