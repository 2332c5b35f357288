/**
 * Locks hand themselves over in the order of their own queues, not in the order that suits. Whatever
 * the order, every waiting task is served, after a number of steps that counts those in the queues.
 */
module Queues {
  import opened Types
  import opened Protocol
  import opened Locks

  /** The lock steps a task can take, at most, before it ends, sleeps or asks the engine. */
  function Work(task: Task): nat {
    var whole :=
      match task.pc
      case Probe(_, _) => 8
      case ProbeJustified(_, _, _) => 6
      case ProbeFinalized(_, _, _) => 4
      case Publish(_) => 8
      case RecordJustified(_) => 6
      case RecordFinalized(_) => 4
      case Attributes(_) => 2
      case CheckRecent => 4
      case ProbePayload(_, _) => 2
      case StorePayload(_) => 4
      case RegisterPayload(_) => 2
      case FetchFromBuilder => 2
      case _ => 0;
    if task.inside then whole - 1 else whole
  }

  ghost function Total(tasks: map<nat, Task>): nat
    decreases |tasks|
  {
    if tasks == map[] then 0
    else
      var tid :| tid in tasks;
      Work(tasks[tid]) + Total(tasks - {tid})
  }

  /** Any task may be counted first. */
  lemma {:induction false} TotalWithout(tasks: map<nat, Task>, tid: nat)
    requires tid in tasks
    ensures Total(tasks) == Work(tasks[tid]) + Total(tasks - {tid})
    decreases |tasks|
  {
    var first :| first in tasks && Total(tasks) == Work(tasks[first]) + Total(tasks - {first});
    if first != tid {
      TotalWithout(tasks - {first}, tid);
      TotalWithout(tasks - {tid}, first);
      assert tasks - {first} - {tid} == tasks - {tid} - {first};
    }
  }

  lemma {:induction false} TotalAfter(tasks: map<nat, Task>, tid: nat, task: Task)
    requires tid in tasks
    ensures Total(tasks[tid := task]) == Total(tasks) - Work(tasks[tid]) + Work(task)
  {
    TotalWithout(tasks, tid);
    TotalWithout(tasks[tid := task], tid);
    assert tasks[tid := task] - {tid} == tasks - {tid};
  }

  /** The tasks that await a lock or have just been granted one. */
  function Busy(tasks: map<nat, Task>): set<nat> {
    set tid | tid in tasks && LockOf(tasks[tid].pc).Some?
  }

  lemma {:induction false} TotalBound(tasks: map<nat, Task>)
    ensures Total(tasks) <= 8 * |Busy(tasks)|
    decreases |tasks|
  {
    if tasks != map[] {
      var tid :| tid in tasks;
      TotalWithout(tasks, tid);
      TotalBound(tasks - {tid});
      WorkBound(tasks[tid]);
      BusyWithout(tasks, tid);
    }
  }

  lemma {:induction false} WorkBound(task: Task)
    ensures Work(task) <= if LockOf(task.pc).Some? then 8 else 0
  {
  }

  lemma {:induction false} BusyWithout(tasks: map<nat, Task>, tid: nat)
    requires tid in tasks
    ensures |Busy(tasks)| == |Busy(tasks - {tid})| + if LockOf(tasks[tid].pc).Some? then 1 else 0
  {
    var rest := tasks - {tid};
    assert forall other :: other in rest ==> rest[other] == tasks[other];
    if LockOf(tasks[tid].pc).Some? {
      assert Busy(tasks) == Busy(rest) + {tid};
    } else {
      assert Busy(tasks) == Busy(rest);
    }
  }

  predicate LockStep(step: Step) {
    step.Acquire? || step.Proceed?
  }

  lemma {:induction false} SectionUsesWork(cfg: Config, sh: Shared, job: Job, pc: Pc)
    requires Fits(job, pc) && LockOf(pc).Some?
    ensures Work(Task(job, CriticalSection(cfg, sh, job, pc).pc, false)) < Work(Task(job, pc, true))
  {
  }

  lemma {:induction false} ProceedUsesWork(cfg: Config, m: Machine, tid: nat)
    requires Enabled(m, Proceed(tid))
    ensures Total(Proceeding(cfg, m, tid).tasks) < Total(m.tasks)
  {
    var task := m.tasks[tid];
    SectionUsesWork(cfg, m.shared, task.job, task.pc);
    TotalAfter(m.tasks, tid, Task(task.job, CriticalSection(cfg, m.shared, task.job, task.pc).pc, false));
  }

  lemma {:induction false} AcquireUsesWork(cfg: Config, m: Machine, tid: nat)
    requires Enabled(m, Acquire(tid))
    ensures Total(Apply(cfg, m, Acquire(tid)).tasks) < Total(m.tasks)
  {
    WorkInside(m.tasks[tid].job, m.tasks[tid].pc);
    TotalAfter(m.tasks, tid, Task(m.tasks[tid].job, m.tasks[tid].pc, true));
  }

  lemma {:induction false} WorkInside(job: Job, pc: Pc)
    requires Fits(job, pc) && LockOf(pc).Some?
    ensures Work(Task(job, pc, true)) < Work(Task(job, pc, false))
  {
  }

  lemma {:induction false} StepUsesWork(cfg: Config, m: Machine, step: Step)
    requires Enabled(m, step) && LockStep(step)
    ensures Total(Apply(cfg, m, step).tasks) < Total(m.tasks)
  {
    if step.Proceed? {
      ProceedUsesWork(cfg, m, step.tid);
    } else {
      AcquireUsesWork(cfg, m, step.tid);
    }
  }

  // ----- queues ---------------------------------------------------------------------------

  predicate WaitsFor(m: Machine, tid: nat, l: Lock) {
    tid in m.tasks && !m.tasks[tid].inside && LockOf(m.tasks[tid].pc) == Some(l)
  }

  ghost predicate WaitedFor(m: Machine, l: Lock) {
    exists tid :: WaitsFor(m, tid, l)
  }

  /** Who is first in the queue of each lock, given the steps so far. */
  type Queues = (seq<Step>, Lock) -> nat

  /** A critical section, or the first in a queue being granted the lock. */
  ghost predicate InTurn(m: Machine, step: Step, past: seq<Step>, first: Queues) {
    && Enabled(m, step) && LockStep(step)
    && (step.Acquire? ==> step.tid == first(past, LockOf(m.tasks[step.tid].pc).value))
  }

  /** Every step of the run is taken in turn. */
  ghost predicate Orderly(cfg: Config, m: Machine, steps: seq<Step>, first: Queues) {
    forall i :: 0 <= i < |steps| ==>
      Run(cfg, m, steps[..i]).Some? && InTurn(Run(cfg, m, steps[..i]).value, steps[i], steps[..i], first)
  }

  /** A lock that is waited for has a waiter at the head of its queue. */
  ghost predicate Queued(m: Machine, past: seq<Step>, first: Queues) {
    forall l :: WaitedFor(m, l) ==> WaitsFor(m, first(past, l), l)
  }

  /** Following who waits for whom upward in rank ends at a section to run or at the head of a free lock's queue. */
  lemma {:induction false} SomebodyIsNext(m: Machine, tid: nat, l: Lock, past: seq<Step>, first: Queues)
    returns (step: Step)
    requires Queued(m, past, first) && WaitsFor(m, tid, l)
    ensures InTurn(m, step, past, first)
    decreases 5 - Rank(l)
  {
    if Free(m, l) {
      assert WaitedFor(m, l);
      step := Acquire(first(past, l));
    } else {
      var holder :| holder in m.tasks && l in Holds(m.tasks[holder]);
      LockOrder(m.tasks[holder]);
      if m.tasks[holder].inside {
        step := Proceed(holder);
      } else {
        step := SomebodyIsNext(m, holder, LockOf(m.tasks[holder].pc).value, past, first);
      }
    }
  }

  lemma {:induction false} RunUsesWork(cfg: Config, m: Machine, steps: seq<Step>, first: Queues)
    requires Orderly(cfg, m, steps, first)
    ensures Run(cfg, m, steps).Some? && |steps| + Total(Run(cfg, m, steps).value.tasks) <= Total(m.tasks)
    decreases |steps|
  {
    if steps != [] {
      var init, last := steps[..|steps| - 1], steps[|steps| - 1];
      assert forall i :: 0 <= i <= |init| ==> init[..i] == steps[..i];
      RunUsesWork(cfg, m, init, first);
      StepUsesWork(cfg, Run(cfg, m, init).value, last);
    }
  }

  /**
   * Freedom from deadlock and from waiting for ever, under any queues, first-in-first-out or other.
   * An orderly run takes at most eight steps for every task that is at a lock when it begins; and it
   * can always go on in turn, until no task awaits or has a lock.
   */
  lemma {:induction false} EveryQueueIsServed(cfg: Config, m: Machine, steps: seq<Step>, first: Queues, n: Machine)
    requires Orderly(cfg, m, steps, first) && Run(cfg, m, steps) == Some(n)
    requires Queued(n, steps, first)
    ensures |steps| <= 8 * |Busy(m.tasks)|
    ensures Busy(n.tasks) != {} <==> exists step :: InTurn(n, step, steps, first)
  {
    RunUsesWork(cfg, m, steps, first);
    TotalBound(m.tasks);
    if Busy(n.tasks) != {} {
      var tid :| tid in Busy(n.tasks);
      var step;
      if n.tasks[tid].inside {
        step := Proceed(tid);
      } else {
        step := SomebodyIsNext(n, tid, LockOf(n.tasks[tid].pc).value, steps, first);
      }
      assert InTurn(n, step, steps, first);
    }
    if step :| InTurn(n, step, steps, first) {
      assert step.tid in Busy(n.tasks);
    }
  }

  // ----- everyone is served -------------------------------------------------------------------

  /** After every orderly run, the queues of the locks that are waited for are not empty. */
  ghost predicate AlwaysQueued(cfg: Config, m: Machine, first: Queues) {
    forall steps :: Orderly(cfg, m, steps, first) && Run(cfg, m, steps).Some? ==>
      Queued(Run(cfg, m, steps).value, steps, first)
  }

  lemma {:induction false} OrderlyExtends(cfg: Config, m: Machine, steps: seq<Step>, first: Queues, n: Machine,
      step: Step)
    requires Orderly(cfg, m, steps, first) && Run(cfg, m, steps) == Some(n) && InTurn(n, step, steps, first)
    ensures Orderly(cfg, m, steps + [step], first) && Run(cfg, m, steps + [step]) == Some(Apply(cfg, n, step))
  {
    RunSnoc(cfg, m, steps, step);
    var more := steps + [step];
    forall i | 0 <= i < |more|
      ensures Run(cfg, m, more[..i]).Some? && InTurn(Run(cfg, m, more[..i]).value, more[i], more[..i], first)
    {
      assert more[..i] == steps[..i];
      if i == |steps| {
        assert steps[..i] == steps;
      }
    }
  }

  /** Taking turns until nobody awaits or has a lock. */
  lemma {:induction false} ServeAll(cfg: Config, m: Machine, steps: seq<Step>, first: Queues, n: Machine)
    returns (all: seq<Step>, end: Machine)
    requires Orderly(cfg, m, steps, first) && Run(cfg, m, steps) == Some(n) && AlwaysQueued(cfg, m, first)
    ensures Orderly(cfg, m, all, first) && Run(cfg, m, all) == Some(end) && Busy(end.tasks) == {}
    decreases Total(n.tasks)
  {
    if Busy(n.tasks) == {} {
      all, end := steps, n;
    } else {
      EveryQueueIsServed(cfg, m, steps, first, n);
      var step :| InTurn(n, step, steps, first);
      OrderlyExtends(cfg, m, steps, first, n, step);
      StepUsesWork(cfg, n, step);
      all, end := ServeAll(cfg, m, steps + [step], first, Apply(cfg, n, step));
    }
  }

  /** A task that awaits a lock goes on awaiting it until it is granted it. */
  lemma {:induction false} WaitsUntilGranted(cfg: Config, m: Machine, steps: seq<Step>, first: Queues, tid: nat,
      l: Lock)
    requires Orderly(cfg, m, steps, first) && Run(cfg, m, steps).Some? && WaitsFor(m, tid, l)
    requires Acquire(tid) !in steps
    ensures WaitsFor(Run(cfg, m, steps).value, tid, l)
    decreases |steps|
  {
    if steps != [] {
      var init, last := steps[..|steps| - 1], steps[|steps| - 1];
      assert forall i :: 0 <= i <= |init| ==> init[..i] == steps[..i];
      WaitsUntilGranted(cfg, m, init, first, tid, l);
      assert last in steps;
      StepShared(cfg, Run(cfg, m, init).value, last);
    }
  }

  lemma {:induction false} StillBusy(m: Machine, tid: nat, l: Lock)
    requires WaitsFor(m, tid, l)
    ensures Busy(m.tasks) != {}
  {
    assert tid in Busy(m.tasks);
  }

  /**
   * So, however the queues are ordered, an orderly run of at most eight steps for every task at a lock
   * ends with all locks free and nobody waiting, and every task that awaited one was granted it.
   */
  lemma {:induction false} EveryWaiterIsServed(cfg: Config, m: Machine, first: Queues)
    returns (steps: seq<Step>, n: Machine)
    requires AlwaysQueued(cfg, m, first)
    ensures Orderly(cfg, m, steps, first) && Run(cfg, m, steps) == Some(n)
    ensures |steps| <= 8 * |Busy(m.tasks)| && Busy(n.tasks) == {}
    ensures forall tid, l :: WaitsFor(m, tid, l) ==> Acquire(tid) in steps
  {
    steps, n := ServeAll(cfg, m, [], first, m);
    EveryQueueIsServed(cfg, m, steps, first, n);
    forall tid, l | WaitsFor(m, tid, l) ensures Acquire(tid) in steps {
      if Acquire(tid) !in steps {
        WaitsUntilGranted(cfg, m, steps, first, tid, l);
        StillBusy(n, tid, l);
      }
    }
  }
}
