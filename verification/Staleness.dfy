/**
 * Under loose matching a triple can outlive its safe or its finalized hash, and the controller
 * repeating the triple does not bring them back: an update that finds a definite verdict records nothing.
 */
module Staleness {
  import opened Types
  import opened Protocol
  import opened FcuVerdicts
  import opened Lookups
  import opened Shadowing
  import Lru

  /** The two hashes that loose matching wants remembered. */
  datatype Side = Safe | Finalized

  function HashOf(side: Side, fcu: Forkchoice): Hash {
    if side.Safe? then fcu.safe else fcu.finalized
  }

  function CacheOf(side: Side, sh: Shared): HashCache {
    if side.Safe? then sh.justified else sh.finalized
  }

  /** A controller with this program counter has still to record the hash of this side. */
  predicate WillRecord(side: Side, pc: Pc) {
    pc.RecordJustified? || (side.Finalized? && pc.RecordFinalized?)
  }

  /** A definite verdict is cached, but one of the triple's hashes is forgotten and nobody is about to record it. */
  ghost predicate Stale(m: Machine, side: Side, fcu: Forkchoice) {
    && Lru.Contains(m.shared.fcu, fcu) && IsDefinite(Lru.Peek(m.shared.fcu, fcu).value)
    && !Lru.Contains(CacheOf(side, m.shared), HashOf(side, fcu))
    && (forall tid :: tid in m.tasks && WillRecord(side, m.tasks[tid].pc) ==>
        HashOf(side, m.tasks[tid].job.fcu) != HashOf(side, fcu))
  }

  /** The step caches a VALID that is news, for another triple with the same hash. */
  ghost predicate Refreshes(m: Machine, step: Step, side: Side, fcu: Forkchoice) {
    && step.Proceed? && step.tid in m.tasks && m.tasks[step.tid].pc.Publish?
    && m.tasks[step.tid].job.fcu != fcu && HashOf(side, m.tasks[step.tid].job.fcu) == HashOf(side, fcu)
    && m.tasks[step.tid].pc.reply.verdict.Valid?
    && (var hit := Lru.Peek(m.shared.fcu, m.tasks[step.tid].job.fcu); hit.None? || !IsDefinite(hit.value))
  }

  /** One critical section neither recalls the hash nor loses the verdict. */
  lemma {:induction false} SectionOnStale(cfg: Config, m: Machine, tid: nat, side: Side, fcu: Forkchoice)
    requires CachesOk(m.shared) && Enabled(m, Proceed(tid)) && Stale(m, side, fcu)
    ensures var after := Apply(cfg, m, Proceed(tid)).shared;
            && !Lru.Contains(CacheOf(side, after), HashOf(side, fcu))
            && (Lru.Contains(after.fcu, fcu) ==> IsDefinite(Lru.Peek(after.fcu, fcu).value))
  {
    var job, pc := m.tasks[tid].job, m.tasks[tid].pc;
    StepKeepsDefinite(cfg, m, Proceed(tid), fcu);
    if pc.RecordJustified? {
      Lru.PutFacts(m.shared.justified, job.fcu.safe, ());
    } else if pc.RecordFinalized? {
      Lru.PutFacts(m.shared.finalized, job.fcu.finalized, ());
    }
  }

  /** A task comes to record the hash of a stale triple exactly by a refreshing publication. */
  lemma {:induction false} RecordsOnlyNews(cfg: Config, m: Machine, tid: nat, side: Side, fcu: Forkchoice)
    requires Enabled(m, Proceed(tid)) && Stale(m, side, fcu)
    ensures var task := Apply(cfg, m, Proceed(tid)).tasks[tid];
            WillRecord(side, task.pc) && HashOf(side, task.job.fcu) == HashOf(side, fcu) <==>
                Refreshes(m, Proceed(tid), side, fcu)
  {
  }

  /** It comes about when a newer hash is recorded while this one is next in line for eviction. */
  lemma {:induction false} BecomesStale(cfg: Config, m: Machine, tid: nat, side: Side, fcu: Forkchoice)
    requires CachesOk(m.shared) && Enabled(m, Proceed(tid))
    requires if side.Safe? then m.tasks[tid].pc.RecordJustified? else m.tasks[tid].pc.RecordFinalized?
    requires Lru.Contains(m.shared.fcu, fcu) && IsDefinite(Lru.Peek(m.shared.fcu, fcu).value)
    requires var cache := CacheOf(side, m.shared);
             && |cache.entries| == cache.capacity && cache.entries[|cache.entries| - 1].0 == HashOf(side, fcu)
             && !Lru.Contains(cache, HashOf(side, m.tasks[tid].job.fcu))
    requires forall other :: other in m.tasks && WillRecord(side, m.tasks[other].pc) ==>
               HashOf(side, m.tasks[other].job.fcu) != HashOf(side, fcu)
    ensures !Stale(m, side, fcu) && Stale(Apply(cfg, m, Proceed(tid)), side, fcu)
  {
    Lru.PutEvictsLast(CacheOf(side, m.shared), HashOf(side, m.tasks[tid].job.fcu), ());
    StepShared(cfg, m, Proceed(tid));
  }

  /** A stale triple stays so, through any step, exactly unless it is evicted or another triple refreshes its hash. */
  lemma {:induction false} StaleExactlyUntil(cfg: Config, m: Machine, step: Step, side: Side, fcu: Forkchoice)
    requires CachesOk(m.shared) && Enabled(m, step) && Stale(m, side, fcu)
    ensures Stale(Apply(cfg, m, step), side, fcu) <==>
            Lru.Contains(Apply(cfg, m, step).shared.fcu, fcu) && !Refreshes(m, step, side, fcu)
  {
    StepShared(cfg, m, step);
    if step.Proceed? {
      SectionOnStale(cfg, m, step.tid, side, fcu);
      RecordsOnlyNews(cfg, m, step.tid, side, fcu);
    }
  }

  /** No step of the run refreshes the hash. */
  ghost predicate NeverRefreshed(cfg: Config, m: Machine, steps: seq<Step>, side: Side, fcu: Forkchoice) {
    forall i :: 0 <= i < |steps| ==>
      Run(cfg, m, steps[..i]).Some? && !Refreshes(Run(cfg, m, steps[..i]).value, steps[i], side, fcu)
  }

  /** This task's loose lookup of the triple is past its check of the safe hash. */
  predicate PastSafeCheck(m: Machine, tid: nat, fcu: Forkchoice) {
    tid in m.tasks && m.tasks[tid].pc.ProbeFinalized? && m.tasks[tid].job.fcu == fcu
  }

  /** The only lookups of a triple with a forgotten safe hash that are past that check were past it before. */
  lemma {:induction false} NobodyPasses(cfg: Config, m: Machine, step: Step, fcu: Forkchoice, tid: nat)
    requires Enabled(m, step) && Stale(m, Safe, fcu) && PastSafeCheck(Apply(cfg, m, step), tid, fcu)
    ensures PastSafeCheck(m, tid, fcu)
  {
    if step == Proceed(tid) {
      EntersLastWait(cfg, m.shared, m.tasks[tid].job, m.tasks[tid].pc);
    } else {
      EntersByItself(cfg, m, step, tid);
    }
  }

  /**
   * However often the controller repeats the triple, and whatever the engine answers, no lookup of
   * it that starts, or checks the safe hash, once the triple is stale can hit, until the triple is
   * evicted or another one with that hash is newly called VALID. Only a lookup already past its
   * check of a hash forgotten since is left.
   */
  lemma {:induction false} RepeatingDoesNotHelp(cfg: Config, m: Machine, steps: seq<Step>, side: Side, fcu: Forkchoice)
    requires cfg.matching.Loose? && CachesOk(m.shared) && Stale(m, side, fcu)
    requires StaysResident(cfg, m, steps, fcu) && NeverRefreshed(cfg, m, steps, side, fcu)
    ensures Run(cfg, m, steps).Some? && Stale(Run(cfg, m, steps).value, side, fcu)
    ensures forall definiteOnly :: CachedFcu(cfg, Run(cfg, m, steps).value.shared, fcu, definiteOnly).None?
    ensures forall tid :: side.Safe? && PastSafeCheck(Run(cfg, m, steps).value, tid, fcu) ==> PastSafeCheck(m, tid, fcu)
    decreases |steps|
  {
    assert steps[..|steps|] == steps;
    if steps != [] {
      var init, last := steps[..|steps| - 1], steps[|steps| - 1];
      assert forall i :: 0 <= i <= |init| ==> init[..i] == steps[..i];
      RepeatingDoesNotHelp(cfg, m, init, side, fcu);
      RunKeepsCaches(cfg, m, init);
      var n := Run(cfg, m, init).value;
      StaleExactlyUntil(cfg, n, last, side, fcu);
      forall tid | side.Safe? && PastSafeCheck(Apply(cfg, n, last), tid, fcu) ensures PastSafeCheck(m, tid, fcu) {
        NobodyPasses(cfg, n, last, fcu, tid);
      }
    }
  }

  /** The lookup found the safe hash before it was forgotten, and its finalized hash is cached. */
  ghost predicate SlippedThrough(m: Machine, tid: nat, fcu: Forkchoice) {
    PastSafeCheck(m, tid, fcu) && Lru.Contains(m.shared.finalized, fcu.finalized)
  }

  /**
   * What a client is told when its last look at a stale triple ends: the cached verdict if it slipped
   * through, and otherwise the made-up SYNCING although the engine's verdict is cached. Nobody slips
   * through when it is the finalized hash that is forgotten.
   */
  lemma {:induction false} StaleClientsAreMisled(cfg: Config, m: Machine, client: nat, side: Side)
    requires cfg.matching.Loose?
    requires client in m.tasks && m.tasks[client].job.ClientFcu? && m.tasks[client].inside
    requires Looking(m.tasks[client].pc) && !m.tasks[client].pc.definiteOnly
    requires Stale(m, side, m.tasks[client].job.fcu)
    requires !Looking(Apply(cfg, m, Proceed(client)).tasks[client].pc)
    ensures var task, next := m.tasks[client], Apply(cfg, m, Proceed(client)).tasks[client].pc;
            var slipped := SlippedThrough(m, client, task.job.fcu);
            && (slipped ==> side.Safe? && next == AfterStatus(cfg, task.job, task.pc.existing))
            && (next == AfterStatus(cfg, task.job, SYNTHETIC_SYNCING) <==>
                !slipped || task.pc.existing == SYNTHETIC_SYNCING)
  {
  }

  // ----- how a lookup comes to miss ------------------------------------------------------------

  /** The step records the hash of this side. */
  predicate Recording(m: Machine, step: Step, side: Side) {
    && step.Proceed? && step.tid in m.tasks
    && (if side.Safe? then m.tasks[step.tid].pc.RecordJustified? else m.tasks[step.tid].pc.RecordFinalized?)
  }

  /** The step records a new hash into a full cache whose last one is the hash of this triple. */
  ghost predicate Forgets(m: Machine, step: Step, side: Side, fcu: Forkchoice) {
    && Recording(m, step, side)
    && (var cache := CacheOf(side, m.shared);
        && cache.entries != [] && |cache.entries| == cache.capacity
        && cache.entries[|cache.entries| - 1].0 == HashOf(side, fcu)
        && !Lru.Contains(cache, HashOf(side, m.tasks[step.tid].job.fcu)))
  }

  /** The step caches a reply for another head, and evicts the only entry with this one. */
  ghost predicate Displaces(m: Machine, step: Step, fcu: Forkchoice) {
    && step.Proceed? && step.tid in m.tasks && m.tasks[step.tid].pc.Publish?
    && m.tasks[step.tid].job.fcu.head != fcu.head
    && EvictsHead(m.shared.fcu, m.tasks[step.tid].job.fcu, fcu.head)
  }

  lemma {:induction false} HashEvictedExactlyWhen(cache: HashCache, hash: Hash, victim: Hash)
    requires Lru.WellFormed(cache) && Lru.Contains(cache, victim)
    ensures !Lru.Contains(Lru.Put(cache, hash, ()), victim) <==>
            && cache.entries != [] && |cache.entries| == cache.capacity
            && cache.entries[|cache.entries| - 1].0 == victim
            && !Lru.Contains(cache, hash)
  {
    Lru.PutFacts(cache, hash, ());
    if hash != victim {
      Lru.PutEvictsExactlyWhen(cache, hash, (), victim);
    }
  }

  lemma {:induction false} HashCacheAfter(cfg: Config, m: Machine, step: Step, side: Side)
    requires Enabled(m, step)
    ensures CacheOf(side, Apply(cfg, m, step).shared)
            == if Recording(m, step, side)
                then Lru.Put(CacheOf(side, m.shared), HashOf(side, m.tasks[step.tid].job.fcu), ())
               else CacheOf(side, m.shared)
  {
    StepShared(cfg, m, step);
  }

  lemma {:induction false} ForgottenExactlyWhen(cfg: Config, m: Machine, step: Step, side: Side, fcu: Forkchoice)
    requires CachesOk(m.shared) && Enabled(m, step) && Lru.Contains(CacheOf(side, m.shared), HashOf(side, fcu))
    ensures !Lru.Contains(CacheOf(side, Apply(cfg, m, step).shared), HashOf(side, fcu)) <==> Forgets(m, step, side, fcu)
  {
    HashCacheAfter(cfg, m, step, side);
    if Recording(m, step, side) {
      HashEvictedExactlyWhen(CacheOf(side, m.shared), HashOf(side, m.tasks[step.tid].job.fcu), HashOf(side, fcu));
    }
  }

  lemma {:induction false} NewestLostExactlyWhen(cfg: Config, m: Machine, step: Step, fcu: Forkchoice)
    requires cfg.matching.Loose? && CachesOk(m.shared) && Enabled(m, step) && NewestDefinite(m.shared.fcu, fcu.head)
    ensures !NewestDefinite(Apply(cfg, m, step).shared.fcu, fcu.head) <==>
            Shadows(m, step, fcu) || Displaces(m, step, fcu)
  {
    StepShared(cfg, m, step);
    if step.Proceed? && m.tasks[step.tid].pc.Publish? {
      var job, reply := m.tasks[step.tid].job, m.tasks[step.tid].pc.reply;
      FirstAfterPut(m.shared.fcu, job.fcu, reply, fcu.head);
      if job.fcu.head != fcu.head {
        HeadEvictedExactlyWhen(m.shared.fcu, job.fcu, reply, fcu.head);
      }
      if Lru.Contains(m.shared.fcu, job.fcu) {
        FirstAfterTouch(m.shared.fcu, job.fcu, fcu.head);
      }
    }
  }

  /**
   * Step by step these are all the ways in which a loose lookup for a definite answer comes to miss: a
   * newer indefinite reply for its head, the eviction of the last entry with its head, or the eviction
   * of its safe or its finalized hash. Anything else leaves it answered.
   */
  lemma {:induction false} LostExactlyWhen(cfg: Config, m: Machine, step: Step, fcu: Forkchoice)
    requires cfg.matching.Loose? && CachesOk(m.shared) && Enabled(m, step)
    requires CachedFcu(cfg, m.shared, fcu, true).Some?
    ensures CachedFcu(cfg, Apply(cfg, m, step).shared, fcu, true).None? <==>
            || Shadows(m, step, fcu)
            || Displaces(m, step, fcu)
            || Forgets(m, step, Safe, fcu)
            || Forgets(m, step, Finalized, fcu)
  {
    NewestLostExactlyWhen(cfg, m, step, fcu);
    ForgottenExactlyWhen(cfg, m, step, Safe, fcu);
    ForgottenExactlyWhen(cfg, m, step, Finalized, fcu);
  }
}
