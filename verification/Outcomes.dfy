/**
 * Where the outcome of each request comes from, over whole runs: the step of its own task at which the
 * status or the identifier was found in a cache, or given by the engine.
 */
module Outcomes {
  import opened Types
  import opened PayloadBuilding
  import opened NewPayloads
  import opened Protocol
  import opened Answers
  import opened PayloadIds
  import PayloadVerdicts
  import Lru

  // ----- moments of a run ------------------------------------------------------------------

  /** The run stands in `n` before its step `i`. */
  ghost predicate Before(cfg: Config, steps: seq<Step>, i: nat, n: Machine) {
    i < |steps| && Run(cfg, Initial(cfg), steps[..i]) == Some(n)
  }

  /** The last step of a run, and what went before. */
  lemma {:induction false} LastStep(cfg: Config, steps: seq<Step>, m: Machine)
    returns (init: seq<Step>, last: Step, before: Machine)
    requires steps != [] && Run(cfg, Initial(cfg), steps) == Some(m)
    ensures steps == init + [last] && Run(cfg, Initial(cfg), init) == Some(before)
    ensures Enabled(before, last) && m == Apply(cfg, before, last)
    ensures |init| == |steps| - 1 && steps[|init|] == last && Before(cfg, steps, |init|, before)
  {
    init, last := steps[..|steps| - 1], steps[|steps| - 1];
    before := Run(cfg, Initial(cfg), init).value;
    assert steps[..|init|] == init;
  }

  lemma {:induction false} StillBefore(cfg: Config, steps: seq<Step>, init: seq<Step>, last: Step, i: nat, n: Machine)
    requires steps == init + [last] && Before(cfg, init, i, n)
    ensures Before(cfg, steps, i, n) && steps[i] == init[i]
  {
    assert steps[..i] == init[..i];
  }

  // ----- what the engine was asked -----------------------------------------------------------

  predicate Answered(step: Step, tid: nat) {
    step.Answer? && step.tid == tid
  }

  ghost predicate NeverAnswered(steps: seq<Step>, tid: nat) {
    forall i :: 0 <= i < |steps| ==> !Answered(steps[i], tid)
  }

  ghost predicate AnsweredOnce(steps: seq<Step>, tid: nat) {
    forall i, j :: 0 <= i < |steps| && 0 <= j < |steps| && Answered(steps[i], tid) && Answered(steps[j], tid) ==> i == j
  }

  predicate IsController(job: Job) {
    job.ControllerFcu? || job.ControllerNewPayload?
  }

  predicate BeforeAnswer(pc: Pc) {
    pc.Probe? || pc.ProbeJustified? || pc.ProbeFinalized? || pc.ProbePayload? || pc.CallEngine?
  }

  /** The task does not exist, is a client's, has not asked the engine, or awaits its answer. */
  predicate Unanswered(m: Machine, tid: nat) {
    tid in m.tasks && IsController(m.tasks[tid].job) ==> BeforeAnswer(m.tasks[tid].pc)
  }

  lemma {:induction false} NeverIsOnce(steps: seq<Step>, init: seq<Step>, last: Step, tid: nat)
    requires steps == init + [last] && NeverAnswered(init, tid)
    ensures AnsweredOnce(steps, tid)
    ensures !Answered(last, tid) ==> NeverAnswered(steps, tid)
  {
  }

  lemma {:induction false} OnceStays(steps: seq<Step>, init: seq<Step>, last: Step, tid: nat)
    requires steps == init + [last] && AnsweredOnce(init, tid) && !Answered(last, tid)
    ensures AnsweredOnce(steps, tid)
    ensures NeverAnswered(init, tid) ==> NeverAnswered(steps, tid)
  {
  }

  /** Only a controller's task is answered by the engine, and only once. */
  lemma {:induction false} AskedAtMostOnce(cfg: Config, steps: seq<Step>, m: Machine, tid: nat)
    requires Run(cfg, Initial(cfg), steps) == Some(m)
    ensures AnsweredOnce(steps, tid)
    ensures Unanswered(m, tid) ==> NeverAnswered(steps, tid)
    decreases |steps|
  {
    if steps != [] {
      var init, last, before := LastStep(cfg, steps, m);
      AskedAtMostOnce(cfg, init, before, tid);
      if Answered(last, tid) {
        IsAnswered(cfg, before, last, tid);
        NeverIsOnce(steps, init, last, tid);
      } else {
        OnceStays(steps, init, last, tid);
        if Unanswered(m, tid) {
          UnansweredBefore(cfg, before, last, tid);
        }
      }
    }
  }

  lemma {:induction false} IsAnswered(cfg: Config, m: Machine, step: Step, tid: nat)
    requires Enabled(m, step) && Answered(step, tid)
    ensures Unanswered(m, tid) && !Unanswered(Apply(cfg, m, step), tid)
  {
  }

  lemma {:induction false} UnansweredBefore(cfg: Config, m: Machine, step: Step, tid: nat)
    requires Enabled(m, step) && !Answered(step, tid) && Unanswered(Apply(cfg, m, step), tid)
    ensures Unanswered(m, tid)
  {
    StepShared(cfg, m, step);
    if step == Proceed(tid) && IsController(m.tasks[tid].job) {
      UnansweredSection(cfg, m.shared, m.tasks[tid].job, m.tasks[tid].pc);
    }
  }

  lemma {:induction false} UnansweredSection(cfg: Config, sh: Shared, job: Job, pc: Pc)
    requires Fits(job, pc) && LockOf(pc).Some? && IsController(job)
    ensures BeforeAnswer(CriticalSection(cfg, sh, job, pc).pc) ==> BeforeAnswer(pc)
  {
  }

  predicate HasReply(pc: Pc) {
    pc.Publish? || pc.RecordJustified? || pc.RecordFinalized? || pc.StorePayload? || pc.RegisterPayload?
  }

  /** A step that leaves a task with a reply either found it with that reply, or is the engine's answer. */
  lemma {:induction false} ReplyStep(cfg: Config, m: Machine, step: Step, tid: nat)
    requires Enabled(m, step) && tid in Apply(cfg, m, step).tasks && HasReply(Apply(cfg, m, step).tasks[tid].pc)
    ensures tid in m.tasks
    ensures var reply := Apply(cfg, m, step).tasks[tid].pc.reply;
            || (HasReply(m.tasks[tid].pc) && m.tasks[tid].pc.reply == reply)
            || step == Answer(tid, Some(reply))
  {
    StepShared(cfg, m, step);
    if step == Proceed(tid) {
      ReplySection(cfg, m.shared, m.tasks[tid].job, m.tasks[tid].pc);
    }
  }

  lemma {:induction false} ReplySection(cfg: Config, sh: Shared, job: Job, pc: Pc)
    requires Fits(job, pc) && LockOf(pc).Some?
    ensures var next := CriticalSection(cfg, sh, job, pc).pc;
            HasReply(next) ==> HasReply(pc) && pc.reply == next.reply
  {
  }

  /** What a controller's task carries as a reply is what the engine answered to it. */
  lemma {:induction false} ReplyWasGiven(cfg: Config, steps: seq<Step>, m: Machine, tid: nat) returns (i: nat)
    requires Run(cfg, Initial(cfg), steps) == Some(m) && tid in m.tasks && HasReply(m.tasks[tid].pc)
    ensures i < |steps| && steps[i] == Answer(tid, Some(m.tasks[tid].pc.reply))
    decreases |steps|
  {
    var init, last, before := LastStep(cfg, steps, m);
    ReplyStep(cfg, before, last, tid);
    if last == Answer(tid, Some(m.tasks[tid].pc.reply)) {
      i := |init|;
    } else {
      i := ReplyWasGiven(cfg, init, before, tid);
    }
  }

  // ----- newPayload verdicts -------------------------------------------------------------------

  /** Before step `i`, the task's look, the verdict was cached and is taken. */
  ghost predicate FoundVerdict(n: Machine, step: Step, tid: nat, job: Job, status: PayloadStatus)
    requires IsNewPayload(job)
  {
    && step == Proceed(tid) && tid in n.tasks && n.tasks[tid].job == job && n.tasks[tid].pc.ProbePayload?
    && var hit := Lru.Peek(n.shared.newPayload, job.request.payload.blockHash);
    && hit.Some? && hit.value.status == status && Taken(n.tasks[tid].pc.definiteOnly, status)
  }

  /** Or there was none, at the client's last look. */
  ghost predicate FoundNoVerdict(n: Machine, step: Step, tid: nat, job: Job)
    requires IsNewPayload(job)
  {
    && step == Proceed(tid) && tid in n.tasks && n.tasks[tid].job == job && n.tasks[tid].pc.ProbePayload?
    && !n.tasks[tid].pc.definiteOnly && Lru.Peek(n.shared.newPayload, job.request.payload.blockHash).None?
  }

  lemma {:induction false} ClientVerdictStep(cfg: Config, m: Machine, step: Step, tid: nat)
    requires Enabled(m, step) && tid in Apply(cfg, m, step).tasks
    requires Apply(cfg, m, step).tasks[tid].job.ClientNewPayload?
    requires Apply(cfg, m, step).tasks[tid].pc.Finished?
    requires var outcome :=
             Apply(cfg, m, step).tasks[tid].pc.outcome; outcome.StatusDone? || outcome.VersionedHashMismatch?
    ensures tid in m.tasks && m.tasks[tid].job == Apply(cfg, m, step).tasks[tid].job
    ensures var task := Apply(cfg, m, step).tasks[tid];
            || m.tasks[tid].pc == task.pc
            || (task.pc.outcome.StatusDone? && FoundVerdict(m, step, tid, task.job, task.pc.outcome.status))
            || (&& FoundNoVerdict(m, step, tid, task.job)
                && task.pc.outcome == if cfg.versionedHashesVerify(task.job.request) then StatusDone(MADE_UP)
                    else VersionedHashMismatch)
  {
    StepShared(cfg, m, step);
    if step == Proceed(tid) {
      PayloadLookAnswers(cfg, m, tid);
    }
  }

  /**
   * What a client was told of its payload is what it found: the cached verdict, if there was one to be
   * taken when it looked; and SYNCING or the refusal only if there was none at its last look.
   */
  lemma {:induction false} ClientVerdictWasFound(cfg: Config, steps: seq<Step>, m: Machine, tid: nat)
    returns (i: nat, n: Machine)
    requires Run(cfg, Initial(cfg), steps) == Some(m) && tid in m.tasks && m.tasks[tid].job.ClientNewPayload?
    requires m.tasks[tid].pc.Finished?
    requires m.tasks[tid].pc.outcome.StatusDone? || m.tasks[tid].pc.outcome.VersionedHashMismatch?
    ensures Before(cfg, steps, i, n)
    ensures var job, outcome := m.tasks[tid].job, m.tasks[tid].pc.outcome;
            || (outcome.StatusDone? && FoundVerdict(n, steps[i], tid, job, outcome.status))
            || (&& FoundNoVerdict(n, steps[i], tid, job)
                && outcome == if cfg.versionedHashesVerify(job.request) then StatusDone(MADE_UP)
                    else VersionedHashMismatch)
    decreases |steps|
  {
    var init, last, before := LastStep(cfg, steps, m);
    ClientVerdictStep(cfg, before, last, tid);
    if before.tasks[tid].pc == m.tasks[tid].pc {
      i, n := ClientVerdictWasFound(cfg, init, before, tid);
      StillBefore(cfg, steps, init, last, i, n);
    } else {
      i, n := |init|, before;
    }
  }

  lemma {:induction false} ControllerVerdictStep(cfg: Config, m: Machine, step: Step, tid: nat)
    requires Enabled(m, step) && tid in Apply(cfg, m, step).tasks
    requires Apply(cfg, m, step).tasks[tid].job.ControllerNewPayload?
    requires Apply(cfg, m, step).tasks[tid].pc.Finished? && Apply(cfg, m, step).tasks[tid].pc.outcome.StatusDone?
    ensures tid in m.tasks && m.tasks[tid].job == Apply(cfg, m, step).tasks[tid].job
    ensures var task := Apply(cfg, m, step).tasks[tid];
            || m.tasks[tid].pc == task.pc
            || (HasReply(m.tasks[tid].pc) && m.tasks[tid].pc.reply == task.pc.outcome.status && !Answered(step, tid))
            || (&& FoundVerdict(m, step, tid, task.job, task.pc.outcome.status) && m.tasks[tid].pc.definiteOnly)
  {
    StepShared(cfg, m, step);
    if step == Proceed(tid) && m.tasks[tid].pc.ProbePayload? {
      PayloadLookAnswers(cfg, m, tid);
    }
  }

  /**
   * A controller is told what the engine answered to this very call; or, without asking, the definite
   * verdict it found cached.
   */
  lemma {:induction false} ControllerVerdictIs(cfg: Config, steps: seq<Step>, m: Machine, tid: nat)
    returns (i: nat, n: Machine)
    requires Run(cfg, Initial(cfg), steps) == Some(m) && tid in m.tasks && m.tasks[tid].job.ControllerNewPayload?
    requires m.tasks[tid].pc.Finished? && m.tasks[tid].pc.outcome.StatusDone?
    ensures var job, status := m.tasks[tid].job, m.tasks[tid].pc.outcome.status;
            || (i < |steps| && steps[i] == Answer(tid, Some(status)) && AnsweredOnce(steps, tid))
            || (&& Before(cfg, steps, i, n) && FoundVerdict(n, steps[i], tid, job, status)
                && n.tasks[tid].pc.definiteOnly && NeverAnswered(steps, tid))
    decreases |steps|
  {
    var init, last, before := LastStep(cfg, steps, m);
    ControllerVerdictStep(cfg, before, last, tid);
    AskedAtMostOnce(cfg, steps, m, tid);
    n := before;
    if before.tasks[tid].pc == m.tasks[tid].pc {
      i, n := ControllerVerdictIs(cfg, init, before, tid);
      if !(i < |init| && init[i] == Answer(tid, Some(m.tasks[tid].pc.outcome.status)) && AnsweredOnce(init, tid)) {
        StillBefore(cfg, steps, init, last, i, n);
        OnceStays(steps, init, last, tid);
      }
    } else if HasReply(before.tasks[tid].pc) {
      i := ReplyWasGiven(cfg, init, before, tid);
    } else {
      i := |init|;
      AskedAtMostOnce(cfg, init, before, tid);
      OnceStays(steps, init, last, tid);
    }
  }

  // ----- forkchoice statuses ---------------------------------------------------------------------

  /** The caller will be, or was, told this status. */
  predicate Tells(pc: Pc, status: PayloadStatus) {
    (pc.Attributes? && pc.status == status) || (pc.Finished? && pc.outcome.FcuDone? && pc.outcome.status == status)
  }

  /** Before step `i`, a look of the task, the status was there to be taken. */
  ghost predicate FoundStatus(cfg: Config, n: Machine, step: Step, tid: nat, job: Job, status: PayloadStatus)
    requires IsFcu(job)
  {
    && step == Proceed(tid) && tid in n.tasks && n.tasks[tid].job == job
    && var pc := n.tasks[tid].pc;
    && (pc.Probe? || pc.ProbeFinalized?) && Taken(pc.definiteOnly, status)
    && if pc.ProbeFinalized? then pc.existing == status && Lru.Contains(n.shared.finalized, job.fcu.finalized)
       else if cfg.matching == Exact then Lru.Peek(n.shared.fcu, job.fcu) == Some(status)
       else cfg.matching == HeadOnly && FirstWithHead(n.shared.fcu.entries, job.fcu.head) == Some(status)
  }

  /** Or the client's last look missed. */
  ghost predicate MissedAtLast(cfg: Config, n: Machine, step: Step, tid: nat, job: Job)
    requires IsFcu(job)
  {
    && step == Proceed(tid) && tid in n.tasks && n.tasks[tid].job == job && job.ClientFcu?
    && var pc := n.tasks[tid].pc;
    && (pc.Probe? || pc.ProbeJustified? || pc.ProbeFinalized?) && !pc.definiteOnly
    && (pc.Probe? ==>
          if cfg.matching == Exact then Lru.Peek(n.shared.fcu, job.fcu).None?
          else FirstWithHead(n.shared.fcu.entries, job.fcu.head).None?)
    && (pc.ProbeJustified? ==> !Lru.Contains(n.shared.justified, job.fcu.safe))
    && (pc.ProbeFinalized? ==> !Lru.Contains(n.shared.finalized, job.fcu.finalized))
  }

  lemma {:induction false} StatusStep(cfg: Config, m: Machine, step: Step, tid: nat, status: PayloadStatus)
    requires Enabled(m, step) && tid in Apply(cfg, m, step).tasks && IsFcu(Apply(cfg, m, step).tasks[tid].job)
    requires Tells(Apply(cfg, m, step).tasks[tid].pc, status)
    ensures tid in m.tasks && m.tasks[tid].job == Apply(cfg, m, step).tasks[tid].job
    ensures var job := m.tasks[tid].job;
            || Tells(m.tasks[tid].pc, status)
            || FoundStatus(cfg, m, step, tid, job, status)
            || (MissedAtLast(cfg, m, step, tid, job) && status == MADE_UP)
            || (job.ControllerFcu? && HasReply(m.tasks[tid].pc) && m.tasks[tid].pc.reply == status)
    ensures Answered(step, tid) ==> false
  {
    StepShared(cfg, m, step);
    if step == Proceed(tid) {
      var pc := m.tasks[tid].pc;
      if pc.Probe? {
        FirstLookAnswers(cfg, m, tid);
      } else if pc.ProbeJustified? || pc.ProbeFinalized? {
        LaterLooksAnswer(cfg, m, tid);
      }
    }
  }

  /**
   * What a client was told of its triple is what it found when it looked; and the made-up SYNCING only
   * if its last look missed.
   */
  lemma {:induction false} ClientStatusWasFound(cfg: Config, steps: seq<Step>, m: Machine, tid: nat,
      status: PayloadStatus)
    returns (i: nat, n: Machine)
    requires Run(cfg, Initial(cfg), steps) == Some(m) && tid in m.tasks && m.tasks[tid].job.ClientFcu?
    requires Tells(m.tasks[tid].pc, status)
    ensures Before(cfg, steps, i, n)
    ensures || FoundStatus(cfg, n, steps[i], tid, m.tasks[tid].job, status)
            || (MissedAtLast(cfg, n, steps[i], tid, m.tasks[tid].job) && status == MADE_UP)
    decreases |steps|
  {
    var init, last, before := LastStep(cfg, steps, m);
    StatusStep(cfg, before, last, tid, status);
    if Tells(before.tasks[tid].pc, status) {
      i, n := ClientStatusWasFound(cfg, init, before, tid, status);
      StillBefore(cfg, steps, init, last, i, n);
    } else {
      i, n := |init|, before;
    }
  }

  /** A controller is told what the engine answered to this very call; or, without asking, what it found cached. */
  lemma {:induction false} ControllerStatusIs(cfg: Config, steps: seq<Step>, m: Machine, tid: nat,
      status: PayloadStatus)
    returns (i: nat, n: Machine)
    requires Run(cfg, Initial(cfg), steps) == Some(m) && tid in m.tasks && m.tasks[tid].job.ControllerFcu?
    requires Tells(m.tasks[tid].pc, status)
    ensures || (i < |steps| && steps[i] == Answer(tid, Some(status)) && AnsweredOnce(steps, tid))
            || (&& Before(cfg, steps, i, n) && FoundStatus(cfg, n, steps[i], tid, m.tasks[tid].job, status)
                && n.tasks[tid].pc.definiteOnly && NeverAnswered(steps, tid))
    decreases |steps|
  {
    var init, last, before := LastStep(cfg, steps, m);
    StatusStep(cfg, before, last, tid, status);
    AskedAtMostOnce(cfg, steps, m, tid);
    n := before;
    if Tells(before.tasks[tid].pc, status) {
      i, n := ControllerStatusIs(cfg, init, before, tid, status);
      if !(i < |init| && init[i] == Answer(tid, Some(status)) && AnsweredOnce(init, tid)) {
        StillBefore(cfg, steps, init, last, i, n);
        OnceStays(steps, init, last, tid);
      }
    } else if HasReply(before.tasks[tid].pc) {
      i := ReplyWasGiven(cfg, init, before, tid);
    } else {
      i := |init|;
      AskedAtMostOnce(cfg, init, before, tid);
      OnceStays(steps, init, last, tid);
    }
  }

  // ----- refusals ----------------------------------------------------------------------------------

  /** A call fails only if the engine did. */
  lemma {:induction false} FailureWasGiven(cfg: Config, steps: seq<Step>, m: Machine, tid: nat) returns (i: nat)
    requires Run(cfg, Initial(cfg), steps) == Some(m) && tid in m.tasks
    requires m.tasks[tid].pc == Finished(EngineFailed)
    ensures i < |steps| && steps[i] == Answer(tid, None)
    decreases |steps|
  {
    var init, last, before := LastStep(cfg, steps, m);
    FailureStep(cfg, before, last, tid);
    if last == Answer(tid, None) {
      i := |init|;
    } else {
      i := FailureWasGiven(cfg, init, before, tid);
    }
  }

  lemma {:induction false} FailureStep(cfg: Config, m: Machine, step: Step, tid: nat)
    requires Enabled(m, step) && tid in Apply(cfg, m, step).tasks
    requires Apply(cfg, m, step).tasks[tid].pc == Finished(EngineFailed)
    ensures tid in m.tasks && (step == Answer(tid, None) || m.tasks[tid].pc == Finished(EngineFailed))
  {
    StepShared(cfg, m, step);
    if step == Proceed(tid) {
      NoFailureSection(cfg, m.shared, m.tasks[tid].job, m.tasks[tid].pc);
    }
  }

  lemma {:induction false} NoFailureSection(cfg: Config, sh: Shared, job: Job, pc: Pc)
    requires Fits(job, pc) && LockOf(pc).Some?
    ensures CriticalSection(cfg, sh, job, pc).pc != Finished(EngineFailed)
  {
  }

  /** A client's payload is refused for its block hash exactly if that is wrong, whatever the caches hold. */
  lemma {:induction false} RefusedForHashExactlyWhen(cfg: Config, steps: seq<Step>, m: Machine, tid: nat)
    requires Run(cfg, Initial(cfg), steps) == Some(m) && tid in m.tasks && m.tasks[tid].job.ClientNewPayload?
    ensures m.tasks[tid].pc == Finished(BlockHashMismatch) <==> !cfg.blockHashVerifies(m.tasks[tid].job.request)
    decreases |steps|
  {
    var init, last, before := LastStep(cfg, steps, m);
    StepShared(cfg, before, last);
    if tid in before.tasks {
      RefusedForHashExactlyWhen(cfg, init, before, tid);
      RefusalStep(cfg, before, last, tid);
    }
  }

  lemma {:induction false} RefusalStep(cfg: Config, m: Machine, step: Step, tid: nat)
    requires Enabled(m, step) && tid in m.tasks && m.tasks[tid].job.ClientNewPayload?
    ensures tid in Apply(cfg, m, step).tasks
    ensures Apply(cfg, m, step).tasks[tid].pc == Finished(BlockHashMismatch) <==>
            m.tasks[tid].pc == Finished(BlockHashMismatch)
  {
    StepShared(cfg, m, step);
  }

  // ----- identifiers -------------------------------------------------------------------------------

  /**
   * The builder was asked at step `i`: a client for the identifier it remembered for the head and
   * attributes; a controller for one that it remembers for them from then on.
   */
  ghost predicate UsedAttributes(cfg: Config, n: Machine, step: Step, tid: nat, job: Job, answer: PayloadIdAnswer)
    requires IsFcu(job) && job.attributes.Some?
  {
    && step == Proceed(tid) && Enabled(n, step) && n.tasks[tid].job == job && n.tasks[tid].pc.Attributes?
    && var key := (job.fcu.head, job.attributes.value);
    && var before := Lru.Peek(n.shared.builder.attributes, key);
    && var after := Lru.Peek(Apply(cfg, n, step).shared.builder.attributes, key);
    && (if job.ClientFcu? then answer == (if before.Some? then Given(before.value) else NotKnown)
        else
          && (answer.Given? || answer.Refused? || answer.BuilderPanicked?)
          && (answer.Given? ==> after == Some(answer.id)))
  }

  predicate IsDone(pc: Pc, answer: PayloadIdAnswer) {
    pc.Finished? && pc.outcome.FcuDone? && pc.outcome.payloadId == answer
  }

  predicate NoSlot(cfg: Config, attributes: PayloadAttributes) {
    attributes.timestamp < cfg.genesisTime || cfg.secondsPerSlot == 0
  }

  lemma {:induction false} IdStep(cfg: Config, m: Machine, step: Step, tid: nat, answer: PayloadIdAnswer)
    requires CachesOk(m.shared)
    requires Enabled(m, step) && tid in Apply(cfg, m, step).tasks && IsFcu(Apply(cfg, m, step).tasks[tid].job)
    requires IsDone(Apply(cfg, m, step).tasks[tid].pc, answer)
    ensures tid in m.tasks && m.tasks[tid].job == Apply(cfg, m, step).tasks[tid].job
    ensures var job := m.tasks[tid].job;
            || IsDone(m.tasks[tid].pc, answer)
            || (job.attributes.None? && answer == NotAsked)
            || (&& job.ControllerFcu? && job.attributes.Some? && NoSlot(cfg, job.attributes.value)
                && answer == Refused(InvalidTimestamp))
            || (job.attributes.Some? && UsedAttributes(cfg, m, step, tid, job, answer))
  {
    StepShared(cfg, m, step);
    if step == Proceed(tid) {
      if m.tasks[tid].pc.Attributes? {
        AttributesAreUsed(cfg, m, tid);
      } else {
        UnaskedSection(cfg, m.shared, m.tasks[tid].job, m.tasks[tid].pc, answer);
      }
    }
  }

  /** A section that ends a forkchoice update without the builder. */
  lemma {:induction false} UnaskedSection(cfg: Config, sh: Shared, job: Job, pc: Pc, answer: PayloadIdAnswer)
    requires IsFcu(job) && Fits(job, pc) && LockOf(pc).Some? && !pc.Attributes?
    requires IsDone(CriticalSection(cfg, sh, job, pc).pc, answer)
    ensures || (job.attributes.None? && answer == NotAsked)
            || (&& job.ControllerFcu? && job.attributes.Some? && NoSlot(cfg, job.attributes.value)
                && answer == Refused(InvalidTimestamp))
  {
  }

  /**
   * What becomes of the attributes of a forkchoice update. Without any, no identifier is asked for. With
   * some the builder was asked, unless they are a controller's and lie outside the chain's slots.
   */
  lemma {:induction false} IdWasGiven(cfg: Settings, steps: seq<Step>, m: Machine, tid: nat, answer: PayloadIdAnswer)
    returns (i: nat, n: Machine)
    requires Run(cfg, Initial(cfg), steps) == Some(m) && tid in m.tasks && IsFcu(m.tasks[tid].job)
    requires IsDone(m.tasks[tid].pc, answer)
    ensures var job := m.tasks[tid].job;
            || (job.attributes.None? && answer == NotAsked)
            || (&& job.ControllerFcu? && job.attributes.Some? && NoSlot(cfg, job.attributes.value)
                && answer == Refused(InvalidTimestamp))
            || (&& job.attributes.Some? && Before(cfg, steps, i, n)
                && UsedAttributes(cfg, n, steps[i], tid, job, answer))
    decreases |steps|
  {
    var init, last, before := LastStep(cfg, steps, m);
    InitialCachesOk(cfg);
    RunKeepsCaches(cfg, Initial(cfg), init);
    IdStep(cfg, before, last, tid, answer);
    i, n := |init|, before;
    if IsDone(before.tasks[tid].pc, answer) {
      i, n := IdWasGiven(cfg, init, before, tid, answer);
      if Before(cfg, init, i, n) {
        StillBefore(cfg, steps, init, last, i, n);
      }
    }
  }

  /** The identifier a controller, or a client, is given belongs to a build for its own head and attributes. */
  lemma {:induction false} GivenIdIsIssued(cfg: Settings, steps: seq<Step>, m: Machine, tid: nat, id: PayloadId)
    requires Run(cfg, Initial(cfg), steps) == Some(m) && tid in m.tasks && IsFcu(m.tasks[tid].job)
    requires IsDone(m.tasks[tid].pc, Given(id))
    ensures m.tasks[tid].job.attributes.Some?
    ensures IssuedFor(m.builds, (m.tasks[tid].job.fcu.head, m.tasks[tid].job.attributes.value), id)
    decreases |steps|
  {
    var init, last, before := LastStep(cfg, steps, m);
    InitialCachesOk(cfg);
    RunKeepsCaches(cfg, Initial(cfg), init);
    IdStep(cfg, before, last, tid, Given(id));
    BuildsOnlyGrow(cfg, before, last);
    if IsDone(before.tasks[tid].pc, Given(id)) {
      GivenIdIsIssued(cfg, init, before, tid, id);
      StaysIssued(before.builds, m.builds, (m.tasks[tid].job.fcu.head, m.tasks[tid].job.attributes.value), id);
    } else {
      IsIssued(cfg, steps, m, before, last, tid, id);
    }
  }

  lemma {:induction false} BuildsOnlyGrow(cfg: Config, m: Machine, step: Step)
    requires Enabled(m, step)
    ensures m.builds <= Apply(cfg, m, step).builds
  {
  }

  lemma {:induction false} StaysIssued(builds: seq<Build>, more: seq<Build>, key: Key, id: PayloadId)
    requires builds <= more && IssuedFor(builds, key, id)
    ensures IssuedFor(more, key, id)
  {
    var i :| 0 <= i < |builds| && builds[i].key == key && builds[i].id == id;
    assert more[i] == builds[i];
  }

  lemma {:induction false} IsIssued(cfg: Settings, steps: seq<Step>, m: Machine, before: Machine, step: Step,
      tid: nat, id: PayloadId)
    requires Run(cfg, Initial(cfg), steps) == Some(m) && Reachable(cfg, before) && Enabled(before, step)
    requires m == Apply(cfg, before, step) && tid in before.tasks && IsFcu(before.tasks[tid].job)
    requires before.tasks[tid].job.attributes.Some?
    requires UsedAttributes(cfg, before, step, tid, before.tasks[tid].job, Given(id))
    ensures IssuedFor(m.builds, (before.tasks[tid].job.fcu.head, before.tasks[tid].job.attributes.value), id)
  {
    var key := (before.tasks[tid].job.fcu.head, before.tasks[tid].job.attributes.value);
    PayloadVerdicts.BuilderAlwaysConsistent(cfg, before);
    PayloadVerdicts.BuilderAlwaysConsistent(cfg, m);
    if before.tasks[tid].job.ClientFcu? {
      assert IssuedFor(before.builds, key, Lru.Peek(before.shared.builder.attributes, key).value);
      BuildsOnlyGrow(cfg, before, step);
      StaysIssued(before.builds, m.builds, key, id);
    } else {
      assert IssuedFor(m.builds, key, Lru.Peek(m.shared.builder.attributes, key).value);
    }
  }

  // ----- payloads ------------------------------------------------------------------------------------

  /** A fetch was answered with what was stored under its identifier when it looked. */
  lemma {:induction false} FetchWasFound(cfg: Config, steps: seq<Step>, m: Machine, tid: nat)
      returns (i: nat, n: Machine)
    requires Run(cfg, Initial(cfg), steps) == Some(m) && tid in m.tasks && m.tasks[tid].job.FetchPayload?
    requires m.tasks[tid].pc.Finished? && !m.tasks[tid].pc.outcome.Dropped?
    ensures Before(cfg, steps, i, n) && steps[i] == Proceed(tid)
    ensures var stored := Lru.Peek(n.shared.builder.payloads, m.tasks[tid].job.id);
            m.tasks[tid].pc.outcome == if stored.Some? then Fetched(stored.value) else NotFound
    decreases |steps|
  {
    var init, last, before := LastStep(cfg, steps, m);
    FetchStep(cfg, before, last, tid);
    if before.tasks[tid].pc == m.tasks[tid].pc {
      i, n := FetchWasFound(cfg, init, before, tid);
      StillBefore(cfg, steps, init, last, i, n);
    } else {
      i, n := |init|, before;
    }
  }

  lemma {:induction false} FetchStep(cfg: Config, m: Machine, step: Step, tid: nat)
    requires Enabled(m, step) && tid in Apply(cfg, m, step).tasks && Apply(cfg, m, step).tasks[tid].job.FetchPayload?
    requires Apply(cfg, m, step).tasks[tid].pc.Finished? && !Apply(cfg, m, step).tasks[tid].pc.outcome.Dropped?
    ensures tid in m.tasks && m.tasks[tid].job == Apply(cfg, m, step).tasks[tid].job
    ensures || m.tasks[tid].pc == Apply(cfg, m, step).tasks[tid].pc
            || (&& step == Proceed(tid)
                && var stored := Lru.Peek(m.shared.builder.payloads, m.tasks[tid].job.id);
                Apply(cfg, m, step).tasks[tid].pc.outcome == if stored.Some? then Fetched(stored.value) else NotFound)
  {
    StepShared(cfg, m, step);
    if step == Proceed(tid) {
      FetchAnswers(cfg, m, tid);
    }
  }

  // ----- the exchange with the engine -----------------------------------------------------------------

  /**
   * The engine is heard only in answer to a controller, and then about that controller's own triple or
   * payload. So serving clients adds nothing to the exchange.
   */
  lemma {:induction false} OnlyControllersAreHeard(cfg: Config, m: Machine, step: Step)
    requires Enabled(m, step)
    ensures Apply(cfg, m, step).history
            == if step.Answer? && step.reply.Some? then
                 var job := m.tasks[step.tid].job;
                 m.history + [if job.ControllerFcu? then FcuReply(job.fcu, step.reply.value)
                              else PayloadReply(job.request.payload, step.reply.value)]
               else m.history
    ensures step.Answer? ==> IsController(m.tasks[step.tid].job)
  {
  }

  lemma {:induction false} ClientsAreNotHeard(cfg: Config, m: Machine, steps: seq<Step>)
    requires Run(cfg, m, steps).Some?
    requires forall i :: 0 <= i < |steps| ==>
               var tasks := Run(cfg, m, steps).value.tasks;
               steps[i].tid in tasks && !IsController(tasks[steps[i].tid].job)
    ensures Run(cfg, m, steps).value.history == m.history
    decreases |steps|
  {
    if steps != [] {
      var init, last := steps[..|steps| - 1], steps[|steps| - 1];
      var before := Run(cfg, m, init).value;
      StepShared(cfg, before, last);
      forall i | 0 <= i < |init| ensures init[i].tid in before.tasks && !IsController(before.tasks[init[i].tid].job) {
        assert init[i] == steps[i];
        SteppedIsThere(cfg, m, init, i);
      }
      ClientsAreNotHeard(cfg, m, init);
      OnlyControllersAreHeard(cfg, before, last);
      assert steps[|steps| - 1] == last;
    }
  }

  lemma {:induction false} SteppedIsThere(cfg: Config, m: Machine, steps: seq<Step>, i: nat)
    requires Run(cfg, m, steps).Some? && i < |steps|
    ensures steps[i].tid in Run(cfg, m, steps).value.tasks
    decreases |steps|
  {
    var init, last := steps[..|steps| - 1], steps[|steps| - 1];
    StepShared(cfg, Run(cfg, m, init).value, last);
    if i < |init| {
      SteppedIsThere(cfg, m, init, i);
    }
  }
}
