/** What a lookup that takes several locks one after another amounts to, whatever runs in between. */
module Lookups {
  import opened Types
  import opened Protocol
  import opened FcuVerdicts
  import Locks
  import Lru

  // ----- what a probe saw stays true while it is under way ------------------------------

  /** A loose probe keeps the forkchoice lock, so that cache still shows what it saw; the justified cache need not. */
  ghost predicate SnapshotHolds(sh: Shared, job: Job, pc: Pc)
    requires Fits(job, pc)
  {
    pc.ProbeJustified? || pc.ProbeFinalized? ==> FirstWithHead(sh.fcu.entries, job.fcu.head) == Some(pc.existing)
  }

  ghost predicate SnapshotsHold(cfg: Config, m: Machine) {
    forall tid :: tid in m.tasks ==>
      && SnapshotHolds(m.shared, m.tasks[tid].job, m.tasks[tid].pc)
      && (m.tasks[tid].pc.ProbeJustified? || m.tasks[tid].pc.ProbeFinalized? ==> cfg.matching.Loose?)
  }

  lemma {:induction false} SectionKeepsSnapshot(cfg: Config, sh: Shared, job: Job, pc: Pc)
    requires Fits(job, pc) && LockOf(pc).Some? && SnapshotHolds(sh, job, pc)
    requires pc.ProbeJustified? || pc.ProbeFinalized? ==> cfg.matching.Loose?
    ensures var effect := CriticalSection(cfg, sh, job, pc);
            && SnapshotHolds(effect.shared, job, effect.pc)
            && (effect.pc.ProbeJustified? || effect.pc.ProbeFinalized? ==> cfg.matching.Loose?)
  {
  }

  lemma {:induction false} OthersKeepSnapshots(m: Machine, after: Shared, tid: nat, other: nat)
    requires Locks.Exclusive(m) && tid in m.tasks && other in m.tasks && other != tid
    requires after.fcu == m.shared.fcu || FcuLock in Holds(m.tasks[tid])
    requires SnapshotHolds(m.shared, m.tasks[other].job, m.tasks[other].pc)
    ensures SnapshotHolds(after, m.tasks[other].job, m.tasks[other].pc)
  {
    assert Kept(m.tasks[other].pc) <= Holds(m.tasks[other]);
  }

  lemma {:induction false} StepKeepsSnapshots(cfg: Config, m: Machine, step: Step)
    requires Enabled(m, step) && Locks.Exclusive(m) && SnapshotsHold(cfg, m)
    ensures SnapshotsHold(cfg, Apply(cfg, m, step))
  {
    var n := Apply(cfg, m, step);
    StepShared(cfg, m, step);
    if step.Proceed? {
      Locks.WritesOnlyUnderLock(cfg, m, step);
      SectionKeepsSnapshot(cfg, m.shared, m.tasks[step.tid].job, m.tasks[step.tid].pc);
      forall other | other in m.tasks && other != step.tid
        ensures SnapshotHolds(n.shared, m.tasks[other].job, m.tasks[other].pc)
      {
        OthersKeepSnapshots(m, n.shared, step.tid, other);
      }
    }
  }

  lemma {:induction false} RunKeepsSnapshots(cfg: Config, steps: seq<Step>)
    requires Run(cfg, Initial(cfg), steps).Some?
    ensures SnapshotsHold(cfg, Run(cfg, Initial(cfg), steps).value)
    decreases |steps|
  {
    if steps != [] {
      var init := steps[..|steps| - 1];
      RunKeepsSnapshots(cfg, init);
      Locks.RunKeepsExclusive(cfg, Initial(cfg), init);
      StepKeepsSnapshots(cfg, Run(cfg, Initial(cfg), init).value, steps[|steps| - 1]);
    }
  }

  lemma {:induction false} ReachableSnapshots(cfg: Config, m: Machine)
    requires Reachable(cfg, m)
    ensures SnapshotsHold(cfg, m)
  {
    var steps :| Run(cfg, Initial(cfg), steps) == Some(m);
    RunKeepsSnapshots(cfg, steps);
  }

  // ----- what a lookup answers ----------------------------------------------------------------

  predicate Looking(pc: Pc) {
    pc.Probe? || pc.ProbeJustified? || pc.ProbeFinalized?
  }

  /**
   * A lookup whose answer depends on an earlier moment: it found the safe hash, which has been
   * evicted since, and would now answer with a status.
   */
  ghost predicate Straddles(sh: Shared, job: Job, pc: Pc)
    requires Fits(job, pc)
  {
    && pc.ProbeFinalized?
    && !Lru.Contains(sh.justified, job.fcu.safe)
    && Lru.Contains(sh.finalized, job.fcu.finalized)
    && DefiniteEnough(pc.definiteOnly, pc.existing).Some?
  }

  /**
   * When a lookup is atomic. Whatever runs between its lock acquisitions, a lookup that ends in some
   * state answers what the whole lookup, done at once in that state, would answer, if and only if it
   * does not straddle the eviction of its safe hash; under exact and head-only matching none does. A
   * lookup that does not end yet goes on to the next lock, and only under loose matching.
   */
  lemma {:induction false} LookupsAreAtomicExactlyWhen(cfg: Config, m: Machine, tid: nat)
    returns (found: Option<PayloadStatus>)
    requires Reachable(cfg, m) && tid in m.tasks && m.tasks[tid].inside && Looking(m.tasks[tid].pc)
    ensures var task, next := m.tasks[tid], Apply(cfg, m, Proceed(tid)).tasks[tid].pc;
            if Looking(next) then
              cfg.matching.Loose? && Locks.Rank(LockOf(next).value) == Locks.Rank(LockOf(task.pc).value) + 1
            else
              && next == AfterProbe(cfg, task.job, task.pc.definiteOnly, task.pc.at, found)
              && (found == CachedFcu(cfg, m.shared, task.job.fcu, task.pc.definiteOnly) <==>
                  !Straddles(m.shared, task.job, task.pc))
    ensures Straddles(m.shared, m.tasks[tid].job, m.tasks[tid].pc) ==>
            cfg.matching.Loose? && found == Some(m.tasks[tid].pc.existing)
  {
    ReachableSnapshots(cfg, m);
    assert SnapshotHolds(m.shared, m.tasks[tid].job, m.tasks[tid].pc);
    found := SectionAnswers(cfg, m.shared, m.tasks[tid].job, m.tasks[tid].pc);
  }

  /** One section of a lookup, given that the forkchoice cache still shows what the lookup saw. */
  lemma {:induction false} SectionAnswers(cfg: Config, sh: Shared, job: Job, pc: Pc)
    returns (found: Option<PayloadStatus>)
    requires Fits(job, pc) && Looking(pc) && SnapshotHolds(sh, job, pc)
    requires !pc.Probe? ==> cfg.matching.Loose?
    ensures var next := CriticalSection(cfg, sh, job, pc).pc;
            if Looking(next) then
              cfg.matching.Loose? && Locks.Rank(LockOf(next).value) == Locks.Rank(LockOf(pc).value) + 1
            else
              && next == AfterProbe(cfg, job, pc.definiteOnly, pc.at, found)
              && (found == CachedFcu(cfg, sh, job.fcu, pc.definiteOnly) <==> !Straddles(sh, job, pc))
    ensures Straddles(sh, job, pc) ==> found == Some(pc.existing)
  {
    found := if pc.ProbeFinalized? && Lru.Contains(sh.finalized, job.fcu.finalized)
             then DefiniteEnough(pc.definiteOnly, pc.existing)
             else CachedFcu(cfg, sh, job.fcu, pc.definiteOnly);
  }

  /**
   * So, in every reachable state, a loose lookup that ends with a status ends with what head-only
   * matching would answer at once in that state, straddling or not.
   */
  lemma {:induction false} LooseLookupsRefineHeadOnly(cfg: Config, m: Machine, tid: nat)
    returns (found: Option<PayloadStatus>)
    requires cfg.matching.Loose? && Reachable(cfg, m)
    requires tid in m.tasks && m.tasks[tid].inside && Looking(m.tasks[tid].pc)
    requires !Looking(Apply(cfg, m, Proceed(tid)).tasks[tid].pc)
    ensures var task := m.tasks[tid];
            && Apply(cfg, m, Proceed(tid)).tasks[tid].pc
               == AfterProbe(cfg, task.job, task.pc.definiteOnly, task.pc.at, found)
            && (found.Some? ==>
                  && CachedFcu(cfg.(matching := HeadOnly), m.shared, task.job.fcu, task.pc.definiteOnly) == found
                  && Lru.Contains(m.shared.finalized, task.job.fcu.finalized))
  {
    ReachableSnapshots(cfg, m);
    var task := m.tasks[tid];
    assert SnapshotHolds(m.shared, task.job, task.pc);
    found := if task.pc.ProbeFinalized? && Lru.Contains(m.shared.finalized, task.job.fcu.finalized)
             then DefiniteEnough(task.pc.definiteOnly, task.pc.existing)
             else None;
  }

  // ----- when the safe hash was there ---------------------------------------------------------

  /** In every state of the run the forkchoice cache is as at its end. */
  ghost predicate FcuUnchangedSince(cfg: Config, steps: seq<Step>, i: nat)
    requires i <= |steps| && Run(cfg, Initial(cfg), steps).Some?
  {
    forall j :: i <= j <= |steps| ==>
      && Run(cfg, Initial(cfg), steps[..j]).Some?
      && Run(cfg, Initial(cfg), steps[..j]).value.shared.fcu == Run(cfg, Initial(cfg), steps).value.shared.fcu
  }

  /** The task's own check of the safe hash, still on the lookup that `pc` is in: the hash is cached. */
  ghost predicate ChecksSafe(n: Machine, tid: nat, job: Job, pc: Pc)
    requires Fits(job, pc) && pc.ProbeFinalized?
  {
    && tid in n.tasks && n.tasks[tid].inside && n.tasks[tid].job == job
    && n.tasks[tid].pc == ProbeJustified(pc.definiteOnly, pc.at, pc.existing)
    && Lru.Contains(n.shared.justified, job.fcu.safe)
  }

  /**
   * The safe hash of a loose lookup that awaits its last lock was cached at an earlier moment of the
   * same lookup, and since that moment the forkchoice cache has not changed.
   */
  lemma {:induction false} SafeWasCached(cfg: Config, steps: seq<Step>, m: Machine, tid: nat) returns (i: nat)
    requires Run(cfg, Initial(cfg), steps) == Some(m) && tid in m.tasks && m.tasks[tid].pc.ProbeFinalized?
    ensures i < |steps| && steps[i] == Proceed(tid)
    ensures Run(cfg, Initial(cfg), steps[..i]).Some?
    ensures ChecksSafe(Run(cfg, Initial(cfg), steps[..i]).value, tid, m.tasks[tid].job, m.tasks[tid].pc)
    ensures FcuUnchangedSince(cfg, steps, i)
    decreases |steps|
  {
    var init, last := steps[..|steps| - 1], steps[|steps| - 1];
    var before := Run(cfg, Initial(cfg), init).value;
    Locks.RunKeepsExclusive(cfg, Initial(cfg), init);
    LastLookupStep(cfg, before, last, tid);
    assert steps == init + [last];
    if last == Proceed(tid) {
      i := |init|;
      assert init[..i] == init;
    } else {
      i := SafeWasCached(cfg, init, before, tid);
    }
    UnchangedExtends(cfg, init, last, i);
    assert steps[..i] == init[..i];
  }

  lemma {:induction false} UnchangedExtends(cfg: Config, steps: seq<Step>, step: Step, i: nat)
    requires i <= |steps| && Run(cfg, Initial(cfg), steps).Some? && FcuUnchangedSince(cfg, steps, i)
    requires var n := Run(cfg, Initial(cfg), steps).value;
             Enabled(n, step) && Apply(cfg, n, step).shared.fcu == n.shared.fcu
    ensures Run(cfg, Initial(cfg), steps + [step]).Some? && FcuUnchangedSince(cfg, steps + [step], i)
  {
    RunSnoc(cfg, Initial(cfg), steps, step);
    var more := steps + [step];
    forall j | i <= j <= |more|
      ensures Run(cfg, Initial(cfg), more[..j]).Some?
      ensures Run(cfg, Initial(cfg), more[..j]).value.shared.fcu == Run(cfg, Initial(cfg), more).value.shared.fcu
    {
      if j <= |steps| {
        assert more[..j] == steps[..j];
      } else {
        assert more[..j] == more;
      }
    }
  }

  /** The one way into the last wait of a loose lookup. */
  lemma {:induction false} EntersLastWait(cfg: Config, sh: Shared, job: Job, pc: Pc)
    requires Fits(job, pc) && LockOf(pc).Some?
    ensures var effect := CriticalSection(cfg, sh, job, pc);
            effect.pc.ProbeFinalized? ==>
              && pc == ProbeJustified(effect.pc.definiteOnly, effect.pc.at, effect.pc.existing)
              && Lru.Contains(sh.justified, job.fcu.safe)
              && effect.shared == sh
  {
  }

  /** While a loose lookup is in its last wait, others leave the forkchoice cache alone. */
  lemma {:induction false} OthersLeaveFcu(cfg: Config, m: Machine, step: Step, tid: nat)
    requires Enabled(m, step) && Locks.Exclusive(m) && step.tid != tid
    requires tid in m.tasks && m.tasks[tid].pc.ProbeFinalized?
    ensures Apply(cfg, m, step).shared.fcu == m.shared.fcu
  {
    Locks.WritesOnlyUnderLock(cfg, m, step);
    assert FcuLock in Holds(m.tasks[tid]);
  }

  /** No step but its own critical section takes a task into that wait. */
  lemma {:induction false} EntersByItself(cfg: Config, m: Machine, step: Step, tid: nat)
    requires Enabled(m, step) && step != Proceed(tid)
    requires tid in Apply(cfg, m, step).tasks && Apply(cfg, m, step).tasks[tid].pc.ProbeFinalized?
    ensures tid in m.tasks && m.tasks[tid].job == Apply(cfg, m, step).tasks[tid].job
    ensures m.tasks[tid].pc == Apply(cfg, m, step).tasks[tid].pc
    ensures !step.Proceed? || step.tid != tid
    ensures step.tid == tid ==> Apply(cfg, m, step).shared == m.shared
  {
    StepShared(cfg, m, step);
  }

  /** A step into or within the last wait of a loose lookup leaves the forkchoice cache alone. */
  lemma {:induction false} LastLookupStep(cfg: Config, m: Machine, step: Step, tid: nat)
    requires Enabled(m, step) && Locks.Exclusive(m)
    requires tid in Apply(cfg, m, step).tasks && Apply(cfg, m, step).tasks[tid].pc.ProbeFinalized?
    ensures tid in m.tasks && m.tasks[tid].job == Apply(cfg, m, step).tasks[tid].job
    ensures Apply(cfg, m, step).shared.fcu == m.shared.fcu
    ensures if step == Proceed(tid) then ChecksSafe(m, tid, m.tasks[tid].job, Apply(cfg, m, step).tasks[tid].pc)
            else m.tasks[tid].pc == Apply(cfg, m, step).tasks[tid].pc
  {
    if step == Proceed(tid) {
      EntersLastWait(cfg, m.shared, m.tasks[tid].job, m.tasks[tid].pc);
    } else {
      EntersByItself(cfg, m, step, tid);
      if step.tid != tid {
        OthersLeaveFcu(cfg, m, step, tid);
      }
    }
  }
}
