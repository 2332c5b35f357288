/** Where forkchoice answers come from, which of them are final, and how the matching modes compare. */
module FcuVerdicts {
  import opened Types
  import opened Protocol
  import Lru

  // ----- traceability ------------------------------------------------------------

  ghost predicate HeadReplied(history: seq<Event>, head: Hash, status: PayloadStatus) {
    exists fcu: Forkchoice :: fcu.head == head && FcuReply(fcu, status) in history
  }

  /** A triple the engine called VALID had this safe hash. */
  ghost predicate SafeVouched(history: seq<Event>, hash: Hash) {
    exists fcu: Forkchoice, status: PayloadStatus ::
        fcu.safe == hash && status.verdict.Valid? && FcuReply(fcu, status) in history
  }

  ghost predicate FinalizedVouched(history: seq<Event>, hash: Hash) {
    exists fcu: Forkchoice, status: PayloadStatus ::
        fcu.finalized == hash && status.verdict.Valid? && FcuReply(fcu, status) in history
  }

  /** The engine's replies justify answering `fcu` with `status` under the matching mode. */
  ghost predicate Justifies(cfg: Config, history: seq<Event>, fcu: Forkchoice, status: PayloadStatus) {
    match cfg.matching
    case Exact => FcuReply(fcu, status) in history
    case HeadOnly => HeadReplied(history, fcu.head, status)
    case Loose =>
      && HeadReplied(history, fcu.head, status)
      && SafeVouched(history, fcu.safe)
      && FinalizedVouched(history, fcu.finalized)
  }

  ghost predicate SharedTraced(sh: Shared, history: seq<Event>) {
    && (forall fcu {:trigger Lru.Peek(sh.fcu, fcu)} :: Lru.Contains(sh.fcu, fcu) ==>
        FcuReply(fcu, Lru.Peek(sh.fcu, fcu).value) in history)
    && (forall hash :: Lru.Contains(sh.justified, hash) ==> SafeVouched(history, hash))
    && (forall hash :: Lru.Contains(sh.finalized, hash) ==> FinalizedVouched(history, hash))
  }

  ghost predicate Answerable(cfg: Config, history: seq<Event>, job: Job, status: PayloadStatus)
    requires IsFcu(job)
  {
    || Justifies(cfg, history, job.fcu, status)
    || (job.ClientFcu? && status == SYNTHETIC_SYNCING)
    || (job.ControllerFcu? && FcuReply(job.fcu, status) in history)
  }

  /** What a task carries from one await to the next is itself justified. */
  ghost predicate PcTraced(cfg: Config, history: seq<Event>, job: Job, pc: Pc) {
    IsFcu(job) ==>
      match pc
      case ProbeJustified(_, _, existing) => cfg.matching.Loose? && HeadReplied(history, job.fcu.head, existing)
      case ProbeFinalized(_, _, existing) =>
        cfg.matching.Loose? && HeadReplied(history, job.fcu.head, existing) && SafeVouched(history, job.fcu.safe)
      case Publish(reply) => FcuReply(job.fcu, reply) in history
      case RecordJustified(reply) => FcuReply(job.fcu, reply) in history
      case RecordFinalized(reply) => FcuReply(job.fcu, reply) in history
      case Attributes(status) => Answerable(cfg, history, job, status)
      case Finished(outcome) => outcome.FcuDone? ==> Answerable(cfg, history, job, outcome.status)
      case _ => true
  }

  ghost predicate Traced(cfg: Config, m: Machine) {
    && CachesOk(m.shared)
    && SharedTraced(m.shared, m.history)
    && (forall tid :: tid in m.tasks ==> PcTraced(cfg, m.history, m.tasks[tid].job, m.tasks[tid].pc))
  }

  lemma {:induction false} HistoryGrows(cfg: Config, history: seq<Event>, more: seq<Event>)
    requires history <= more
    ensures forall head, status :: HeadReplied(history, head, status) ==> HeadReplied(more, head, status)
    ensures forall hash :: SafeVouched(history, hash) ==> SafeVouched(more, hash)
    ensures forall hash :: FinalizedVouched(history, hash) ==> FinalizedVouched(more, hash)
    ensures forall sh :: SharedTraced(sh, history) ==> SharedTraced(sh, more)
    ensures forall job, pc :: PcTraced(cfg, history, job, pc) ==> PcTraced(cfg, more, job, pc)
  {
    assert forall e :: e in history ==> e in more;
    forall head, status | HeadReplied(history, head, status) ensures HeadReplied(more, head, status) {
      var fcu: Forkchoice :| fcu.head == head && FcuReply(fcu, status) in history;
    }
    forall hash | SafeVouched(history, hash) ensures SafeVouched(more, hash) {
      var fcu: Forkchoice, status: PayloadStatus :| fcu.safe == hash && status.verdict.Valid?
          && FcuReply(fcu, status) in history;
    }
    forall hash | FinalizedVouched(history, hash) ensures FinalizedVouched(more, hash) {
      var fcu: Forkchoice, status: PayloadStatus :| fcu.finalized == hash && status.verdict.Valid?
          && FcuReply(fcu, status) in history;
    }
  }

  /** The first match is a resident entry with that head. */
  lemma {:induction false} FirstWithHeadIsResident(entries: seq<(Forkchoice, PayloadStatus)>, head: Hash)
    returns (fcu: Forkchoice)
    requires Lru.Distinct(entries) && FirstWithHead(entries, head).Some?
    ensures fcu.head == head && Lru.Find(entries, fcu) == FirstWithHead(entries, head)
  {
    if entries[0].0.head == head {
      fcu := entries[0].0;
    } else {
      fcu := FirstWithHeadIsResident(entries[1..], head);
    }
  }

  lemma {:induction false} ResidentHasFirst(entries: seq<(Forkchoice, PayloadStatus)>, fcu: Forkchoice)
    requires Lru.Find(entries, fcu).Some?
    ensures FirstWithHead(entries, fcu.head).Some?
  {
    if entries[0].0.head != fcu.head {
      ResidentHasFirst(entries[1..], fcu);
    }
  }

  lemma {:induction false} HitIsTraced(sh: Shared, history: seq<Event>, head: Hash)
    requires CachesOk(sh) && SharedTraced(sh, history) && FirstWithHead(sh.fcu.entries, head).Some?
    ensures HeadReplied(history, head, FirstWithHead(sh.fcu.entries, head).value)
  {
    var fcu := FirstWithHeadIsResident(sh.fcu.entries, head);
    assert Lru.Peek(sh.fcu, fcu).Some?;
  }

  lemma {:induction false} SectionPcTraced(cfg: Config, sh: Shared, history: seq<Event>, job: Job, pc: Pc)
    requires Fits(job, pc) && LockOf(pc).Some? && CachesOk(sh)
    requires SharedTraced(sh, history) && PcTraced(cfg, history, job, pc)
    ensures PcTraced(cfg, history, job, CriticalSection(cfg, sh, job, pc).pc)
  {
    if pc.Probe? && FirstWithHead(sh.fcu.entries, job.fcu.head).Some? {
      HitIsTraced(sh, history, job.fcu.head);
    }
  }

  lemma {:induction false} SectionSharedTraced(cfg: Config, sh: Shared, history: seq<Event>, job: Job, pc: Pc)
    requires Fits(job, pc) && LockOf(pc).Some? && CachesOk(sh)
    requires SharedTraced(sh, history) && PcTraced(cfg, history, job, pc)
    ensures SharedTraced(CriticalSection(cfg, sh, job, pc).shared, history)
  {
    match pc
    case Probe(_, _) => Lru.TouchFacts(sh.fcu, job.fcu);
    case Publish(reply) =>
      Lru.TouchFacts(sh.fcu, job.fcu);
      Lru.PutFacts(sh.fcu, job.fcu, reply);
    case RecordJustified(_) =>
      Lru.PutFacts(sh.justified, job.fcu.safe, ());
      assert SafeVouched(history, job.fcu.safe);
    case RecordFinalized(_) =>
      Lru.PutFacts(sh.finalized, job.fcu.finalized, ());
      assert FinalizedVouched(history, job.fcu.finalized);
    case _ =>
  }

  lemma {:induction false} SectionTraced(cfg: Config, m: Machine, tid: nat)
    requires Traced(cfg, m) && Enabled(m, Proceed(tid))
    ensures Traced(cfg, Apply(cfg, m, Proceed(tid)))
  {
    var task := m.tasks[tid];
    SectionKeepsCaches(cfg, m.shared, task.job, task.pc);
    SectionPcTraced(cfg, m.shared, m.history, task.job, task.pc);
    SectionSharedTraced(cfg, m.shared, m.history, task.job, task.pc);
  }

  lemma {:induction false} StepTraced(cfg: Config, m: Machine, step: Step)
    requires Traced(cfg, m) && Enabled(m, step)
    ensures Traced(cfg, Apply(cfg, m, step))
  {
    if step.Proceed? {
      SectionTraced(cfg, m, step.tid);
    } else {
      StepShared(cfg, m, step);
      HistoryGrows(cfg, m.history, Apply(cfg, m, step).history);
    }
  }

  lemma {:induction false} RunTraced(cfg: Config, m: Machine, steps: seq<Step>)
    requires Traced(cfg, m) && Run(cfg, m, steps).Some?
    ensures Traced(cfg, Run(cfg, m, steps).value)
    decreases |steps|
  {
    if steps != [] {
      RunTraced(cfg, m, steps[..|steps| - 1]);
      StepTraced(cfg, Run(cfg, m, steps[..|steps| - 1]).value, steps[|steps| - 1]);
    }
  }

  lemma {:induction false} ReachableTraced(cfg: Settings, m: Machine)
    requires Reachable(cfg, m)
    ensures Traced(cfg, m)
  {
    var steps :| Run(cfg, Initial(cfg), steps) == Some(m);
    InitialCachesOk(cfg);
    RunTraced(cfg, Initial(cfg), steps);
  }

  /** What a client is told is the made-up SYNCING, or what the engine said, as the matching mode requires. */
  lemma {:induction false} ClientAnswersAreTraced(cfg: Settings, m: Machine, tid: nat)
    requires Reachable(cfg, m) && tid in m.tasks
    requires m.tasks[tid].job.ClientFcu? && m.tasks[tid].pc.Finished? && m.tasks[tid].pc.outcome.FcuDone?
    ensures var status := m.tasks[tid].pc.outcome.status;
            status == SYNTHETIC_SYNCING || Justifies(cfg, m.history, m.tasks[tid].job.fcu, status)
  {
    ReachableTraced(cfg, m);
    assert PcTraced(cfg, m.history, m.tasks[tid].job, m.tasks[tid].pc);
  }

  /** Every recorded reply was given by the engine to a controller that sent exactly that. */
  lemma {:induction false} HistoryIsTheEngines(cfg: Config, steps: seq<Step>, event: Event) returns (i: nat)
    requires Run(cfg, Initial(cfg), steps).Some? && event in Run(cfg, Initial(cfg), steps).value.history
    ensures i < |steps| && steps[i] == Answer(steps[i].tid, Some(event.status))
    ensures var m := Run(cfg, Initial(cfg), steps[..i]);
            && m.Some? && steps[i].tid in m.value.tasks
            && match event
               case FcuReply(fcu, _) => m.value.tasks[steps[i].tid].job.ControllerFcu?
                   && m.value.tasks[steps[i].tid].job.fcu == fcu
               case PayloadReply(payload, _) => m.value.tasks[steps[i].tid].job.ControllerNewPayload?
                                                && m.value.tasks[steps[i].tid].job.request.payload == payload
    decreases |steps|
  {
    var init, last := steps[..|steps| - 1], steps[|steps| - 1];
    var m := Run(cfg, Initial(cfg), init).value;
    if event in m.history {
      i := HistoryIsTheEngines(cfg, init, event);
      assert init[..i] == steps[..i];
    } else {
      i := |steps| - 1;
    }
  }

  // ----- definite verdicts are final -------------------------------------------------

  lemma {:induction false} StepKeepsDefinite(cfg: Config, m: Machine, step: Step, fcu: Forkchoice)
    requires CachesOk(m.shared) && Enabled(m, step)
    requires Lru.Contains(m.shared.fcu, fcu) && IsDefinite(Lru.Peek(m.shared.fcu, fcu).value)
    ensures var after := Apply(cfg, m, step).shared.fcu;
            Lru.Contains(after, fcu) ==> Lru.Peek(after, fcu) == Lru.Peek(m.shared.fcu, fcu)
  {
    if step.Proceed? {
      var job, pc := m.tasks[step.tid].job, m.tasks[step.tid].pc;
      if IsFcu(job) {
        Lru.TouchFacts(m.shared.fcu, job.fcu);
        if pc.Publish? {
          Lru.PutFacts(m.shared.fcu, job.fcu, pc.reply);
        }
      }
    }
  }

  /** `fcu` is resident in every state of the run. */
  ghost predicate StaysResident(cfg: Config, m: Machine, steps: seq<Step>, fcu: Forkchoice) {
    forall i :: 0 <= i <= |steps| ==>
      Run(cfg, m, steps[..i]).Some? && Lru.Contains(Run(cfg, m, steps[..i]).value.shared.fcu, fcu)
  }

  /** A definite verdict does not change between two evictions, whatever runs concurrently. */
  lemma {:induction false} DefiniteUntilEvicted(cfg: Config, m: Machine, steps: seq<Step>, fcu: Forkchoice)
    requires CachesOk(m.shared)
    requires Lru.Contains(m.shared.fcu, fcu) && IsDefinite(Lru.Peek(m.shared.fcu, fcu).value)
    requires StaysResident(cfg, m, steps, fcu)
    ensures Run(cfg, m, steps).Some?
    ensures Lru.Peek(Run(cfg, m, steps).value.shared.fcu, fcu) == Lru.Peek(m.shared.fcu, fcu)
    decreases |steps|
  {
    assert steps[..|steps|] == steps;
    if steps != [] {
      var init := steps[..|steps| - 1];
      assert forall i :: 0 <= i <= |init| ==> init[..i] == steps[..i];
      DefiniteUntilEvicted(cfg, m, init, fcu);
      RunKeepsCaches(cfg, m, init);
      StepKeepsDefinite(cfg, Run(cfg, m, init).value, steps[|steps| - 1], fcu);
    }
  }

  /** So in Exact mode any two probes of the triple between two evictions are answered alike. */
  lemma {:induction false} ExactAnswersAgree(cfg: Config, m: Machine, steps: seq<Step>, fcu: Forkchoice, n: Machine,
      tid: nat)
    requires cfg.matching.Exact? && CachesOk(m.shared)
    requires Lru.Contains(m.shared.fcu, fcu) && IsDefinite(Lru.Peek(m.shared.fcu, fcu).value)
    requires StaysResident(cfg, m, steps, fcu) && Run(cfg, m, steps) == Some(n)
    requires tid in n.tasks && n.tasks[tid].pc.Probe? && n.tasks[tid].inside && n.tasks[tid].job.fcu == fcu
    ensures Apply(cfg, n, Proceed(tid)).tasks[tid].pc
            == AfterStatus(cfg, n.tasks[tid].job, Lru.Peek(m.shared.fcu, fcu).value)
  {
    DefiniteUntilEvicted(cfg, m, steps, fcu);
  }

  // ----- the matching modes ------------------------------------------------------------

  /** The cache lookup as one uninterrupted function. */
  function CachedFcu(cfg: Config, sh: Shared, fcu: Forkchoice, definiteOnly: bool): Option<PayloadStatus> {
    var hit := if cfg.matching.Exact? then Lru.Peek(sh.fcu, fcu) else FirstWithHead(sh.fcu.entries, fcu.head);
    if hit.None? then None
    else if cfg.matching.Loose?
        && !(Lru.Contains(sh.justified, fcu.safe) && Lru.Contains(sh.finalized, fcu.finalized)) then None
    else DefiniteEnough(definiteOnly, hit.value)
  }

  /**
   * With indefinite answers allowed an Exact hit implies a HeadOnly hit. With definite answers only
   * it does so exactly when the most recent entry with that head is itself definite.
   */
  lemma {:induction false} ExactHitGivesHeadOnlyHit(cfg: Config, sh: Shared, fcu: Forkchoice, definiteOnly: bool)
    requires CachedFcu(cfg.(matching := Exact), sh, fcu, definiteOnly).Some?
    ensures FirstWithHead(sh.fcu.entries, fcu.head).Some?
    ensures CachedFcu(cfg.(matching := HeadOnly), sh, fcu, definiteOnly).Some? <==>
            !definiteOnly || IsDefinite(FirstWithHead(sh.fcu.entries, fcu.head).value)
  {
    ResidentHasFirst(sh.fcu.entries, fcu);
  }

  /**
   * How that comes about: when a controller caches an indefinite reply for one triple, a definite
   * verdict of any other triple with that head, wherever it is in the cache, is hidden from head-only
   * lookups for a definite answer, which find it under exact matching; as long as it is resident.
   */
  lemma {:induction false} NewerIndefiniteShadows(cfg: Config, sh: Shared, job: Job, reply: PayloadStatus,
      older: Forkchoice)
    requires CachesOk(sh) && job.ControllerFcu? && job.fcu.head == older.head && job.fcu != older
    requires !IsDefinite(reply) && (var hit := Lru.Peek(sh.fcu, job.fcu); hit.None? || !IsDefinite(hit.value))
    requires Lru.Contains(sh.fcu, older) && IsDefinite(Lru.Peek(sh.fcu, older).value)
    ensures var after := CriticalSection(cfg, sh, job, Publish(reply)).shared;
            && CachedFcu(cfg.(matching := HeadOnly), after, older, true).None?
            && CachedFcu(cfg.(matching := HeadOnly), after, older, false) == Some(reply)
            && (Lru.Contains(after.fcu, older) ==>
                  CachedFcu(cfg.(matching := Exact), after, older, true) == Lru.Peek(sh.fcu, older))
  {
    Lru.PutFacts(sh.fcu, job.fcu, reply);
  }
}
