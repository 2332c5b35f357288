/** Clients asking for forkchoice verdicts do not influence what the controller sees, except under exact matching. */
module NonInterference {
  import opened Types
  import opened Protocol
  import Lru

  /** The step belongs to a client's forkchoiceUpdated. */
  ghost predicate ClientStep(m: Machine, step: Step) {
    || (step.Spawn? && step.job.ClientFcu?)
    || (!step.Spawn? && step.tid in m.tasks && m.tasks[step.tid].job.ClientFcu?)
  }

  /** The run with every client forkchoiceUpdated step deleted. */
  ghost function WithoutClients(cfg: Config, m: Machine, steps: seq<Step>): seq<Step>
    requires Run(cfg, m, steps).Some?
    decreases |steps|
  {
    if steps == [] then []
    else
      var init, last := steps[..|steps| - 1], steps[|steps| - 1];
      WithoutClients(cfg, m, init) + if ClientStep(Run(cfg, m, init).value, last) then [] else [last]
  }

  /** Equal, save for what the dummy payload builder answered at the very end. */
  predicate SameUpToBuilder(a: Task, b: Task) {
    && a.job == b.job && a.inside == b.inside
    && (|| a.pc == b.pc
        || (&& a.pc.Finished? && b.pc.Finished?
            && (|| (a.pc.outcome.FcuDone? && b.pc.outcome.FcuDone? && a.pc.outcome.status == b.pc.outcome.status)
                || a.job.FetchPayload?)))
  }

  /** The five caches save the builder's, and everything the engine was asked, are the same. */
  ghost predicate Alike(m: Machine, n: Machine) {
    && n.shared.fcu == m.shared.fcu
    && n.shared.justified == m.shared.justified
    && n.shared.finalized == m.shared.finalized
    && n.shared.newPayload == m.shared.newPayload
    && n.history == m.history
    && (forall tid :: tid in n.tasks <==> tid in m.tasks && !m.tasks[tid].job.ClientFcu?)
    && (forall tid :: tid in n.tasks ==> SameUpToBuilder(m.tasks[tid], n.tasks[tid]))
  }

  predicate SameVerdictCaches(a: Shared, b: Shared) {
    a.fcu == b.fcu && a.justified == b.justified && a.finalized == b.finalized && a.newPayload == b.newPayload
  }

  /** Under loose and head-only matching a client only looks: iteration and membership do not reorder. */
  lemma {:induction false} ClientSectionLeavesCaches(cfg: Config, sh: Shared, job: Job, pc: Pc)
    requires !cfg.matching.Exact? && job.ClientFcu? && Fits(job, pc) && LockOf(pc).Some?
    ensures SameVerdictCaches(CriticalSection(cfg, sh, job, pc).shared, sh)
  {
  }

  /** The other handlers act on the verdict caches without regard to the builder. */
  lemma {:induction false} SectionIgnoresBuilder(cfg: Config, sh1: Shared, sh2: Shared, job: Job, pc: Pc)
    requires Fits(job, pc) && LockOf(pc).Some? && SameVerdictCaches(sh1, sh2)
    ensures var e1, e2 := CriticalSection(cfg, sh1, job, pc), CriticalSection(cfg, sh2, job, pc);
            && SameVerdictCaches(e1.shared, e2.shared)
            && SameUpToBuilder(Task(job, e1.pc, false), Task(job, e2.pc, false))
  {
  }

  lemma {:induction false} SameHolds(a: Task, b: Task)
    requires SameUpToBuilder(a, b)
    ensures Holds(a) == Holds(b)
    ensures a.pc != b.pc ==> LockOf(a.pc).None? && !a.inside && a.pc.Finished? && b.pc.Finished?
  {
  }

  lemma {:induction false} FreeWithoutClients(m: Machine, n: Machine, l: Lock)
    requires Alike(m, n) && Free(m, l)
    ensures Free(n, l)
  {
    forall tid | tid in n.tasks ensures l !in Holds(n.tasks[tid]) {
      SameHolds(m.tasks[tid], n.tasks[tid]);
    }
  }

  lemma {:induction false} ClientStepStaysAlike(cfg: Config, m: Machine, n: Machine, step: Step)
    requires !cfg.matching.Exact? && Alike(m, n) && Enabled(m, step) && ClientStep(m, step)
    ensures Alike(Apply(cfg, m, step), n)
  {
    StepShared(cfg, m, step);
    if step.Proceed? {
      ClientSectionLeavesCaches(cfg, m.shared, m.tasks[step.tid].job, m.tasks[step.tid].pc);
    }
  }

  lemma {:induction false} OtherStepEnabled(m: Machine, n: Machine, step: Step)
    requires Alike(m, n) && Enabled(m, step) && !ClientStep(m, step)
    ensures Enabled(n, step)
    ensures !step.Spawn? ==> n.tasks[step.tid] == m.tasks[step.tid]
  {
    if !step.Spawn? {
      SameHolds(m.tasks[step.tid], n.tasks[step.tid]);
    }
    if step.Acquire? {
      FreeWithoutClients(m, n, LockOf(m.tasks[step.tid].pc).value);
    }
  }

  lemma {:induction false} OtherSectionStaysAlike(cfg: Config, m: Machine, n: Machine, tid: nat)
    requires Alike(m, n) && Enabled(m, Proceed(tid)) && !m.tasks[tid].job.ClientFcu?
    requires Enabled(n, Proceed(tid)) && n.tasks[tid] == m.tasks[tid]
    ensures Alike(Apply(cfg, m, Proceed(tid)), Apply(cfg, n, Proceed(tid)))
  {
    SectionIgnoresBuilder(cfg, m.shared, n.shared, m.tasks[tid].job, m.tasks[tid].pc);
  }

  /** The tasks correspond after the same change to one of them, or the same new one. */
  lemma {:induction false} SameChangeStaysAlike(m: Machine, n: Machine, tid: nat, task: Task, events: seq<Event>)
    requires Alike(m, n) && !task.job.ClientFcu?
    requires tid in m.tasks ==> tid in n.tasks
    ensures Alike(m.(tasks := m.tasks[tid := task], history := m.history + events),
                  n.(tasks := n.tasks[tid := task], history := n.history + events))
  {
  }

  /** A step other than a critical section changes one task, and adds to the history, in the same way in both. */
  lemma {:induction false} OtherAwaitStaysAlike(cfg: Config, m: Machine, n: Machine, step: Step)
    requires Alike(m, n) && Enabled(m, step) && !ClientStep(m, step) && !step.Proceed?
    requires Enabled(n, step) && (!step.Spawn? ==> n.tasks[step.tid] == m.tasks[step.tid])
    ensures Alike(Apply(cfg, m, step), Apply(cfg, n, step))
  {
    var task := Apply(cfg, m, step).tasks[step.tid];
    var events := EventsOf(m, step);
    ChangesOneTask(cfg, m, step);
    ChangesOneTask(cfg, n, step);
    SameChangeStaysAlike(m, n, step.tid, task, events);
  }

  ghost function EventsOf(m: Machine, step: Step): seq<Event>
    requires Enabled(m, step)
  {
    if step.Answer? && step.reply.Some? then
      var job := m.tasks[step.tid].job;
      [if job.ControllerFcu? then FcuReply(job.fcu, step.reply.value)
          else PayloadReply(job.request.payload, step.reply.value)]
    else []
  }

  lemma {:induction false} ChangesOneTask(cfg: Config, m: Machine, step: Step)
    requires Enabled(m, step) && !step.Proceed?
    ensures var n := Apply(cfg, m, step);
            && step.tid in n.tasks
            && n == m.(tasks := m.tasks[step.tid := n.tasks[step.tid]], history := m.history + EventsOf(m, step))
  {
  }

  lemma {:induction false} OtherStepStaysAlike(cfg: Config, m: Machine, n: Machine, step: Step)
    requires Alike(m, n) && Enabled(m, step) && !ClientStep(m, step)
    ensures Enabled(n, step) && Alike(Apply(cfg, m, step), Apply(cfg, n, step))
  {
    OtherStepEnabled(m, n, step);
    if step.Proceed? {
      OtherSectionStaysAlike(cfg, m, n, step.tid);
    } else {
      OtherAwaitStaysAlike(cfg, m, n, step);
    }
  }

  /**
   * Non-interference. Under loose and head-only matching, deleting every client forkchoiceUpdated
   * step from any run leaves a run, with the same forkchoice, justified, finalized and newPayload
   * caches down to their recency order, the same exchange with the engine, and the same status for
   * every controller call.
   */
  lemma {:induction false} ClientsDoNotInterfere(cfg: Config, steps: seq<Step>, m: Machine) returns (n: Machine)
    requires !cfg.matching.Exact? && Run(cfg, Initial(cfg), steps) == Some(m)
    ensures Run(cfg, Initial(cfg), WithoutClients(cfg, Initial(cfg), steps)) == Some(n)
    ensures Alike(m, n)
    decreases |steps|
  {
    if steps == [] {
      n := m;
    } else {
      var init, last := steps[..|steps| - 1], steps[|steps| - 1];
      var before := Run(cfg, Initial(cfg), init).value;
      var alone := ClientsDoNotInterfere(cfg, init, before);
      var kept := WithoutClients(cfg, Initial(cfg), init);
      if ClientStep(before, last) {
        ClientStepStaysAlike(cfg, before, alone, last);
        assert kept + [] == kept;
        n := alone;
      } else {
        OtherStepStaysAlike(cfg, before, alone, last);
        RunSnoc(cfg, Initial(cfg), kept, last);
        n := Apply(cfg, alone, last);
      }
    }
  }

  // ----- exact matching ------------------------------------------------------------------

  /** A client probe leaves the forkchoice cache alone exactly when it does not reorder it. */
  lemma {:induction false} ProbeInertExactlyWhen(cfg: Config, sh: Shared, job: Job, definiteOnly: bool, at: Clock)
    requires job.ClientFcu? && Lru.WellFormed(sh.fcu)
    ensures CriticalSection(cfg, sh, job, Probe(definiteOnly, at)).shared == sh <==>
            || !cfg.matching.Exact?
            || !Lru.Contains(sh.fcu, job.fcu)
            || sh.fcu.entries[0].0 == job.fcu
  {
    if Lru.Contains(sh.fcu, job.fcu) && sh.fcu.entries[0].0 == job.fcu {
      assert [sh.fcu.entries[0]] + sh.fcu.entries[1..] == sh.fcu.entries;
    }
  }

  /**
   * Under exact matching clients do interfere: with the cache full, a client that asks about the
   * triple next in line for eviction saves it from the controller's next new triple.
   */
  lemma {:induction false} ExactClientsInterfere(cfg: Config, sh: Shared, client: Job, controller: Job,
      reply: PayloadStatus)
    requires cfg.matching.Exact? && Lru.WellFormed(sh.fcu) && |sh.fcu.entries| == sh.fcu.capacity >= 2
    requires client.ClientFcu? && client.fcu == sh.fcu.entries[|sh.fcu.entries| - 1].0
    requires controller.ControllerFcu? && !Lru.Contains(sh.fcu, controller.fcu)
    ensures var probed := CriticalSection(cfg, sh, client, Probe(true, START)).shared;
            && Lru.Contains(CriticalSection(cfg, probed, controller, Publish(reply)).shared.fcu, client.fcu)
            && !Lru.Contains(CriticalSection(cfg, sh, controller, Publish(reply)).shared.fcu, client.fcu)
  {
    var last := client.fcu;
    Lru.PutEvictsLast(sh.fcu, controller.fcu, reply);

    var probed := Lru.Touch(sh.fcu, last);
    Lru.TouchFacts(sh.fcu, last);
    var write: Lru.Op<Forkchoice, PayloadStatus> := Lru.Written(controller.fcu, reply);
    assert Lru.Others([write], last) <= {controller.fcu};
    Lru.SubsetSize({} + Lru.Others([write], last), {controller.fcu});
    Lru.HeldStep(probed, last, Lru.Peek(sh.fcu, last).value, {}, write);
  }
}
