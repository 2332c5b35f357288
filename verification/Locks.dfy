/** Mutual exclusion and freedom from deadlock, with any number of tasks. */
module Locks {
  import opened Types
  import opened Protocol

  function Rank(l: Lock): nat {
    match l
    case FcuLock => 0
    case JustifiedLock => 1
    case FinalizedLock => 2
    case NewPayloadLock => 3
    case BuilderLock => 4
  }

  /** No lock is held by two tasks. */
  ghost predicate Exclusive(m: Machine) {
    forall a, b :: a in m.tasks && b in m.tasks && a != b ==> Holds(m.tasks[a]) !! Holds(m.tasks[b])
  }

  /** A critical section keeps only locks the task already had. */
  lemma {:induction false} SectionOnlyReleases(cfg: Config, sh: Shared, job: Job, pc: Pc)
    requires Fits(job, pc) && LockOf(pc).Some?
    ensures Kept(CriticalSection(cfg, sh, job, pc).pc) <= Kept(pc) + {LockOf(pc).value}
  {
  }

  /** After a step its task holds only what it held before, or a lock that was free. */
  lemma {:induction false} HeldAfterStep(cfg: Config, m: Machine, step: Step, l: Lock)
    requires Enabled(m, step) && step.tid in Apply(cfg, m, step).tasks
             && l in Holds(Apply(cfg, m, step).tasks[step.tid])
    ensures Free(m, l) || (step.tid in m.tasks && l in Holds(m.tasks[step.tid]))
  {
    if step.Proceed? {
      SectionOnlyReleases(cfg, m.shared, m.tasks[step.tid].job, m.tasks[step.tid].pc);
    }
  }

  lemma {:induction false} StepKeepsExclusive(cfg: Config, m: Machine, step: Step)
    requires Exclusive(m) && Enabled(m, step)
    ensures Exclusive(Apply(cfg, m, step))
  {
    var n := Apply(cfg, m, step);
    assert forall tid :: tid in n.tasks && tid != step.tid ==> tid in m.tasks && n.tasks[tid] == m.tasks[tid];
    forall l | step.tid in n.tasks && l in Holds(n.tasks[step.tid])
      ensures Free(m, l) || (step.tid in m.tasks && l in Holds(m.tasks[step.tid]))
    {
      HeldAfterStep(cfg, m, step, l);
    }
    OneTaskChanged(m, n, step.tid);
  }

  lemma {:induction false} OneTaskChanged(m: Machine, n: Machine, tid: nat)
    requires Exclusive(m)
    requires forall other :: other in n.tasks && other != tid ==> other in m.tasks && n.tasks[other] == m.tasks[other]
    requires forall l :: tid in n.tasks && l in Holds(n.tasks[tid]) ==>
             Free(m, l) || (tid in m.tasks && l in Holds(m.tasks[tid]))
    ensures Exclusive(n)
  {
  }

  lemma {:induction false} RunKeepsExclusive(cfg: Config, m: Machine, steps: seq<Step>)
    requires Exclusive(m) && Run(cfg, m, steps).Some?
    ensures Exclusive(Run(cfg, m, steps).value)
    decreases |steps|
  {
    if steps != [] {
      RunKeepsExclusive(cfg, m, steps[..|steps| - 1]);
      StepKeepsExclusive(cfg, Run(cfg, m, steps[..|steps| - 1]).value, steps[|steps| - 1]);
    }
  }

  /** In every reachable state each lock has at most one holder. */
  lemma {:induction false} MutualExclusion(cfg: Config, m: Machine)
    requires Reachable(cfg, m)
    ensures Exclusive(m)
  {
    var steps :| Run(cfg, Initial(cfg), steps) == Some(m);
    RunKeepsExclusive(cfg, Initial(cfg), steps);
  }

  /**
   * Every cache is written only by a task that holds its lock; so by mutual exclusion a task that
   * holds a lock sees its cache unchanged by others.
   */
  lemma {:induction false} WritesOnlyUnderLock(cfg: Config, m: Machine, step: Step)
    requires Enabled(m, step)
    ensures var before, after := m.shared, Apply(cfg, m, step).shared;
            after != before ==>
              && step.Proceed?
              && (after.fcu != before.fcu ==> FcuLock in Holds(m.tasks[step.tid]))
              && (after.justified != before.justified ==> JustifiedLock in Holds(m.tasks[step.tid]))
              && (after.finalized != before.finalized ==> FinalizedLock in Holds(m.tasks[step.tid]))
              && (after.newPayload != before.newPayload ==> NewPayloadLock in Holds(m.tasks[step.tid]))
              && (after.builder != before.builder ==> BuilderLock in Holds(m.tasks[step.tid]))
  {
    StepShared(cfg, m, step);
  }

  /** Each look and each update awaits the lock of the cache it is about; only loose looks keep one besides. */
  lemma {:induction false} LockOfEach(pc: Pc)
    ensures LockOf(pc) == Some(FcuLock) <==> pc.Probe? || pc.Publish?
    ensures LockOf(pc) == Some(JustifiedLock) <==> pc.ProbeJustified? || pc.RecordJustified?
    ensures LockOf(pc) == Some(FinalizedLock) <==> pc.ProbeFinalized? || pc.RecordFinalized?
    ensures LockOf(pc) == Some(NewPayloadLock) <==> pc.CheckRecent? || pc.ProbePayload? || pc.StorePayload?
    ensures LockOf(pc) == Some(BuilderLock) <==> pc.Attributes? || pc.RegisterPayload? || pc.FetchFromBuilder?
    ensures LockOf(pc) == None <==> pc.Poll? || pc.CallEngine? || pc.Finished?
    ensures Kept(pc) == if pc.ProbeJustified? || pc.ProbeFinalized? then {FcuLock} else {}
  {
  }

  /** Locks are taken in rank order, and those of the payload cache and the builder are taken alone. */
  lemma {:induction false} LockOrder(task: Task)
    ensures LockOf(task.pc).Some? ==> forall l :: l in Kept(task.pc) ==> Rank(l) < Rank(LockOf(task.pc).value)
    ensures LockOf(task.pc) in {Some(NewPayloadLock), Some(BuilderLock)} ==> Kept(task.pc) == {}
    ensures Holds(task) != {} ==> LockOf(task.pc).Some?
  {
  }

  // ----- every lock can be freed ---------------------------------------------------

  /** How many steps, by it and by those it waits for, a holder of `l` needs to let go of it. */
  function Cost(task: Task, l: Lock): nat {
    if l != FcuLock then 1
    else
      match task.pc
      case ProbeFinalized(_, _, _) => if task.inside then 1 else 3
      case ProbeJustified(_, _, _) => if task.inside then 4 else 6
      case Probe(_, _) => 7
      case _ => 1
  }

  function Budget(l: Lock): nat {
    if l == FcuLock then 7 else 1
  }

  lemma {:induction false} HolderCost(task: Task, l: Lock)
    requires l in Holds(task)
    ensures Cost(task, l) <= Budget(l)
  {
  }

  /** A task that still holds a lock after its critical section has less left to do, and more than one step was due. */
  lemma {:induction false} SectionCost(cfg: Config, sh: Shared, job: Job, pc: Pc, l: Lock)
    requires Fits(job, pc) && LockOf(pc).Some?
    ensures var next := CriticalSection(cfg, sh, job, pc).pc;
            l in Kept(next) ==> Cost(Task(job, next, false), l) < Cost(Task(job, pc, true), l)
  {
  }

  /** Tasks that hold nothing of this rank or above are left exactly as they were. */
  ghost predicate Undisturbed(m: Machine, n: Machine, rank: nat) {
    forall tid :: tid in m.tasks && (forall l :: l in Holds(m.tasks[tid]) ==> Rank(l) < rank) ==>
      tid in n.tasks && n.tasks[tid] == m.tasks[tid]
  }

  lemma {:induction false} FreeUp(cfg: Config, m: Machine, l: Lock) returns (steps: seq<Step>, n: Machine)
    requires Exclusive(m)
    ensures Run(cfg, m, steps) == Some(n) && Exclusive(n) && Free(n, l)
    ensures |steps| <= Budget(l)
    ensures Undisturbed(m, n, Rank(l))
    decreases 5 - Rank(l), 11
  {
    if Free(m, l) {
      steps, n := [], m;
    } else {
      var holder :| holder in m.tasks && l in Holds(m.tasks[holder]);
      HolderCost(m.tasks[holder], l);
      steps, n := LetGo(cfg, m, holder, l);
    }
  }

  lemma {:induction false} LetGo(cfg: Config, m: Machine, holder: nat, l: Lock) returns (steps: seq<Step>, n: Machine)
    requires Exclusive(m) && holder in m.tasks && l in Holds(m.tasks[holder])
    ensures Run(cfg, m, steps) == Some(n) && Exclusive(n) && Free(n, l)
    ensures |steps| <= Cost(m.tasks[holder], l)
    ensures Undisturbed(m, n, Rank(l))
    decreases 5 - Rank(l), Cost(m.tasks[holder], l)
  {
    var task := m.tasks[holder];
    LockOrder(task);
    if task.inside {
      steps, n := RunSection(cfg, m, holder, l);
    } else {
      var wanted := LockOf(task.pc).value;
      var before, mid := FreeUp(cfg, m, wanted);
      assert mid.tasks[holder] == task;
      var granted := Apply(cfg, mid, Acquire(holder));
      StepKeepsExclusive(cfg, mid, Acquire(holder));
      RunSnoc(cfg, m, before, Acquire(holder));
      assert granted.tasks[holder].pc == task.pc;
      var after;
      after, n := LetGo(cfg, granted, holder, l);
      steps := before + [Acquire(holder)] + after;
      RunConcat(cfg, m, before + [Acquire(holder)], after);
      forall tid | tid in m.tasks && (forall k :: k in Holds(m.tasks[tid]) ==> Rank(k) < Rank(l))
        ensures tid in n.tasks && n.tasks[tid] == m.tasks[tid]
      {
        assert tid != holder;
        assert forall k :: k in Holds(m.tasks[tid]) ==> Rank(k) < Rank(wanted);
        assert mid.tasks[tid] == m.tasks[tid] == granted.tasks[tid];
      }
    }
  }

  lemma {:induction false} RunSection(cfg: Config, m: Machine, holder: nat, l: Lock)
    returns (steps: seq<Step>, n: Machine)
    requires Exclusive(m) && holder in m.tasks && l in Holds(m.tasks[holder]) && m.tasks[holder].inside
    ensures Run(cfg, m, steps) == Some(n) && Exclusive(n) && Free(n, l)
    ensures |steps| <= Cost(m.tasks[holder], l)
    ensures Undisturbed(m, n, Rank(l))
    decreases 5 - Rank(l), Cost(m.tasks[holder], l), 0
  {
    var task := m.tasks[holder];
    var done := Sectioned(cfg, m, holder, l);
    RunSnoc(cfg, m, [], Proceed(holder));
    assert [] + [Proceed(holder)] == [Proceed(holder)];
    if l in Holds(done.tasks[holder]) {
      var after;
      after, n := LetGo(cfg, done, holder, l);
      steps := [Proceed(holder)] + after;
      RunConcat(cfg, m, [Proceed(holder)], after);
    } else {
      steps, n := [Proceed(holder)], done;
    }
  }

  /** One critical section of a lock holder, seen from outside. */
  lemma {:induction false} Sectioned(cfg: Config, m: Machine, holder: nat, l: Lock) returns (done: Machine)
    requires Exclusive(m) && holder in m.tasks && l in Holds(m.tasks[holder]) && m.tasks[holder].inside
    ensures done == Apply(cfg, m, Proceed(holder)) && Exclusive(done)
    ensures holder in done.tasks
    ensures l !in Holds(done.tasks[holder]) ==> Free(done, l)
    ensures l in Holds(done.tasks[holder]) ==> Cost(done.tasks[holder], l) < Cost(m.tasks[holder], l)
    ensures forall tid :: tid in m.tasks && tid != holder ==> tid in done.tasks && done.tasks[tid] == m.tasks[tid]
  {
    var task := m.tasks[holder];
    done := Apply(cfg, m, Proceed(holder));
    StepKeepsExclusive(cfg, m, Proceed(holder));
    SectionCost(cfg, m.shared, task.job, task.pc, l);
    StepShared(cfg, m, Proceed(holder));
  }

  /**
   * Freedom from deadlock. In every reachable state a task that awaits a lock can be granted it
   * after at most seven steps, each by a task that holds a lock or is granted one; and as long as the
   * lock is taken, some holder of a lock can step at once.
   */
  lemma {:induction false} DeadlockFree(cfg: Config, m: Machine, tid: nat) returns (steps: seq<Step>, n: Machine)
    requires Reachable(cfg, m)
    requires tid in m.tasks && !m.tasks[tid].inside && LockOf(m.tasks[tid].pc).Some?
    ensures Run(cfg, m, steps) == Some(n) && |steps| <= 7
    ensures tid in n.tasks && n.tasks[tid] == m.tasks[tid] && Enabled(n, Acquire(tid))
    ensures !Free(m, LockOf(m.tasks[tid].pc).value) ==>
              exists holder :: holder in m.tasks && Holds(m.tasks[holder]) != {}
                               && (Enabled(m, Proceed(holder)) || Enabled(m, Acquire(holder)))
  {
    MutualExclusion(cfg, m);
    LockOrder(m.tasks[tid]);
    steps, n := FreeUp(cfg, m, LockOf(m.tasks[tid].pc).value);
    if !Free(m, LockOf(m.tasks[tid].pc).value) {
      SomeHolderSteps(m, LockOf(m.tasks[tid].pc).value);
    }
  }

  /** And then it can be granted it: a task that keeps no lock is undisturbed meanwhile. */
  lemma {:induction false} Granted(cfg: Config, m: Machine, tid: nat) returns (steps: seq<Step>, n: Machine)
    requires Exclusive(m)
    requires tid in m.tasks && !m.tasks[tid].inside && LockOf(m.tasks[tid].pc).Some? && Kept(m.tasks[tid].pc) == {}
    ensures Run(cfg, m, steps) == Some(n) && |steps| <= Budget(LockOf(m.tasks[tid].pc).value) + 1
    ensures tid in n.tasks && n.tasks[tid] == Task(m.tasks[tid].job, m.tasks[tid].pc, true)
    ensures Exclusive(n)
  {
    var before, free := FreeUp(cfg, m, LockOf(m.tasks[tid].pc).value);
    assert free.tasks[tid] == m.tasks[tid];
    n := Apply(cfg, free, Acquire(tid));
    StepKeepsExclusive(cfg, free, Acquire(tid));
    RunSnoc(cfg, m, before, Acquire(tid));
    steps := before + [Acquire(tid)];
  }

  /** Following "waits for" upward in rank always ends at a holder that can step. */
  lemma {:induction false} SomeHolderSteps(m: Machine, l: Lock)
    requires !Free(m, l)
    ensures exists holder :: holder in m.tasks && Holds(m.tasks[holder]) != {}
                             && (Enabled(m, Proceed(holder)) || Enabled(m, Acquire(holder)))
    decreases 5 - Rank(l)
  {
    var holder :| holder in m.tasks && l in Holds(m.tasks[holder]);
    LockOrder(m.tasks[holder]);
    if m.tasks[holder].inside {
      assert Enabled(m, Proceed(holder));
    } else {
      var wanted := LockOf(m.tasks[holder].pc).value;
      if Free(m, wanted) {
        assert Enabled(m, Acquire(holder));
      } else {
        SomeHolderSteps(m, wanted);
      }
    }
  }
}
