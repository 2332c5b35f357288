/**
 * Under head-only matching the newest entry with a head speaks for all of them. When an older definite
 * verdict can be hidden behind a newer indefinite one, and when it cannot.
 */
module Shadowing {
  import opened Types
  import opened Protocol
  import opened FcuVerdicts
  import Lru

  /** A controller call about this head has missed the cache and has not yet cached its reply. */
  predicate InFlight(task: Task, head: Hash) {
    task.job.ControllerFcu? && task.job.fcu.head == head && (task.pc.CallEngine? || task.pc.Publish?)
  }

  ghost predicate AtMostOneInFlight(m: Machine, head: Hash) {
    forall a, b :: a in m.tasks && b in m.tasks && InFlight(m.tasks[a], head) && InFlight(m.tasks[b], head) ==> a == b
  }

  ghost predicate NeverOverlapping(cfg: Config, m: Machine, steps: seq<Step>, head: Hash) {
    forall i :: 0 <= i <= |steps| ==>
      Run(cfg, m, steps[..i]).Some? && AtMostOneInFlight(Run(cfg, m, steps[..i]).value, head)
  }

  ghost predicate NoneDefinite(cache: FcuCache, head: Hash) {
    forall fcu: Forkchoice {:trigger Lru.Peek(cache, fcu)} :: fcu.head == head && Lru.Contains(cache, fcu) ==>
      !IsDefinite(Lru.Peek(cache, fcu).value)
  }

  predicate NewestDefinite(cache: FcuCache, head: Hash) {
    var newest := FirstWithHead(cache.entries, head);
    newest.Some? && IsDefinite(newest.value)
  }

  /** The newest entry with the head is definite, or none with it is. */
  ghost predicate Unshadowed(cache: FcuCache, head: Hash) {
    NewestDefinite(cache, head) || NoneDefinite(cache, head)
  }

  // ----- what a write does to the newest entry with a head -------------------------------------

  lemma {:induction false} FirstInPrefix(entries: seq<(Forkchoice, PayloadStatus)>, head: Hash, n: nat)
    requires n <= |entries| && FirstWithHead(entries[..n], head).Some?
    ensures FirstWithHead(entries, head) == FirstWithHead(entries[..n], head)
  {
    assert entries[..n][0] == entries[0];
    if entries[0].0.head != head {
      assert entries[..n][1..] == entries[1..][..n - 1];
      FirstInPrefix(entries[1..], head, n - 1);
    }
  }

  lemma {:induction false} FirstWithoutOther(entries: seq<(Forkchoice, PayloadStatus)>, other: Forkchoice, head: Hash)
    requires other.head != head
    ensures FirstWithHead(Lru.Without(entries, other), head) == FirstWithHead(entries, head)
  {
    if entries != [] {
      FirstWithoutOther(entries[1..], other, head);
      if entries[0].0 != other {
        var all := [entries[0]] + Lru.Without(entries[1..], other);
        assert all[1..] == Lru.Without(entries[1..], other);
      }
    }
  }

  /** Writing a triple of another head leaves the newest entry with this head, unless it evicts all of them. */
  lemma {:induction false} FirstAfterPut(cache: FcuCache, key: Forkchoice, status: PayloadStatus, head: Hash)
    requires Lru.WellFormed(cache)
    ensures var first := FirstWithHead(Lru.Put(cache, key, status).entries, head);
            if key.head == head then first == Some(status)
            else first.Some? ==> first == FirstWithHead(cache.entries, head)
  {
    Lru.PutFacts(cache, key, status);
    if key.head != head {
      var all := [(key, status)] + Lru.Without(cache.entries, key);
      FirstWithoutOther(cache.entries, key, head);
      assert all[1..] == Lru.Without(cache.entries, key);
      if |all| > cache.capacity && FirstWithHead(all[..cache.capacity], head).Some? {
        FirstInPrefix(all, head, cache.capacity);
      }
    }
  }

  /** The written triple is new and the cache full, and only the entry it evicts has the head. */
  predicate EvictsHead(cache: FcuCache, key: Forkchoice, head: Hash) {
    && cache.entries != [] && |cache.entries| == cache.capacity
    && !Lru.Contains(cache, key)
    && FirstWithHead(cache.entries[..|cache.entries| - 1], head).None?
  }

  lemma {:induction false} HeadEvictedExactlyWhen(cache: FcuCache, key: Forkchoice, status: PayloadStatus, head: Hash)
    requires Lru.WellFormed(cache) && key.head != head && FirstWithHead(cache.entries, head).Some?
    ensures FirstWithHead(Lru.Put(cache, key, status).entries, head).None? <==> EvictsHead(cache, key, head)
  {
    var all := [(key, status)] + Lru.Without(cache.entries, key);
    Lru.WithoutFacts(cache.entries, key);
    FirstWithoutOther(cache.entries, key, head);
    assert all[1..] == Lru.Without(cache.entries, key);
    if |all| > cache.capacity {
      Lru.WithoutAbsent(cache.entries, key);
      assert all[..cache.capacity][1..] == cache.entries[..|cache.entries| - 1];
    }
  }

  lemma {:induction false} FirstAfterTouch(cache: FcuCache, key: Forkchoice, head: Hash)
    requires Lru.WellFormed(cache) && Lru.Contains(cache, key)
    ensures FirstWithHead(Lru.Touch(cache, key).entries, head)
            == if key.head == head then Lru.Peek(cache, key) else FirstWithHead(cache.entries, head)
  {
    if key.head != head {
      var all := [(key, Lru.Peek(cache, key).value)] + Lru.Without(cache.entries, key);
      FirstWithoutOther(cache.entries, key, head);
      assert all[1..] == Lru.Without(cache.entries, key);
    }
  }

  /** A head none of whose entries is first has none. */
  lemma {:induction false} NoFirstNoneDefinite(cache: FcuCache, head: Hash)
    requires FirstWithHead(cache.entries, head).None?
    ensures NoneDefinite(cache, head)
  {
    forall fcu: Forkchoice | fcu.head == head ensures !Lru.Contains(cache, fcu) {
      if Lru.Contains(cache, fcu) {
        ResidentHasFirst(cache.entries, fcu);
      }
    }
  }

  // ----- without overlap nothing is shadowed ---------------------------------------------------

  /** Only loose lookups have more than one stage. */
  predicate OneStage(pc: Pc) {
    !pc.ProbeJustified? && !pc.ProbeFinalized?
  }

  /** Nothing is shadowed, and nothing definite is cached while a call for the head is in flight. */
  ghost predicate InOrder(m: Machine, head: Hash) {
    && Unshadowed(m.shared.fcu, head)
    && (forall tid :: tid in m.tasks ==> OneStage(m.tasks[tid].pc))
    && (forall tid :: tid in m.tasks && InFlight(m.tasks[tid], head) ==> NoneDefinite(m.shared.fcu, head))
  }

  /** Caching a reply, by a call that was in flight alone. */
  lemma {:induction false} PutKeepsUnshadowed(cache: FcuCache, key: Forkchoice, status: PayloadStatus, head: Hash)
    requires Lru.WellFormed(cache) && Unshadowed(cache, head)
    requires key.head == head ==> NoneDefinite(cache, head)
    ensures Unshadowed(Lru.Put(cache, key, status), head)
    ensures NoneDefinite(cache, head) && (key.head != head || !IsDefinite(status)) ==>
            NoneDefinite(Lru.Put(cache, key, status), head)
  {
    var after := Lru.Put(cache, key, status);
    Lru.PutFacts(cache, key, status);
    FirstAfterPut(cache, key, status, head);
    if FirstWithHead(after.entries, head).None? {
      NoFirstNoneDefinite(after, head);
    }
  }

  /** One critical section of a head-only run. */
  lemma {:induction false} SectionKeepsOrder(cfg: Config, sh: Shared, job: Job, pc: Pc, head: Hash)
    requires cfg.matching.HeadOnly? && CachesOk(sh) && Fits(job, pc) && LockOf(pc).Some? && OneStage(pc)
    requires Unshadowed(sh.fcu, head) && (InFlight(Task(job, pc, true), head) ==> NoneDefinite(sh.fcu, head))
    ensures var effect := CriticalSection(cfg, sh, job, pc);
            && Unshadowed(effect.shared.fcu, head)
            && OneStage(effect.pc)
            && (InFlight(Task(job, effect.pc, false), head) ==> NoneDefinite(effect.shared.fcu, head))
            && (!InFlight(Task(job, pc, true), head) && NoneDefinite(sh.fcu, head) ==>
                NoneDefinite(effect.shared.fcu, head))
  {
    if pc.Publish? {
      Lru.TouchFacts(sh.fcu, job.fcu);
      PutKeepsUnshadowed(sh.fcu, job.fcu, pc.reply, head);
      if Lru.Contains(sh.fcu, job.fcu) {
        FirstAfterTouch(sh.fcu, job.fcu, head);
      }
    }
  }

  lemma {:induction false} StepKeepsOrder(cfg: Config, m: Machine, step: Step, head: Hash)
    requires cfg.matching.HeadOnly? && CachesOk(m.shared) && Enabled(m, step)
    requires AtMostOneInFlight(m, head) && InOrder(m, head)
    ensures InOrder(Apply(cfg, m, step), head)
  {
    StepShared(cfg, m, step);
    if step.Proceed? {
      SectionKeepsOrder(cfg, m.shared, m.tasks[step.tid].job, m.tasks[step.tid].pc, head);
    }
  }

  lemma {:induction false} RunKeepsOrder(cfg: Config, m: Machine, steps: seq<Step>, head: Hash)
    requires cfg.matching.HeadOnly? && CachesOk(m.shared) && InOrder(m, head)
    requires NeverOverlapping(cfg, m, steps, head)
    ensures Run(cfg, m, steps).Some? && InOrder(Run(cfg, m, steps).value, head)
    decreases |steps|
  {
    assert steps[..|steps|] == steps;
    if steps != [] {
      var init := steps[..|steps| - 1];
      assert forall i :: 0 <= i <= |init| ==> init[..i] == steps[..i];
      RunKeepsOrder(cfg, m, init, head);
      RunKeepsCaches(cfg, m, init);
      StepKeepsOrder(cfg, Run(cfg, m, init).value, steps[|steps| - 1], head);
    }
  }

  /**
   * Under head-only matching, while at most one controller call per head is in flight at a time, every
   * cached definite verdict is found: a lookup of its triple for a definite answer hits.
   */
  lemma {:induction false} DefiniteIsFound(cfg: Settings, steps: seq<Step>, m: Machine, fcu: Forkchoice)
    requires cfg.matching.HeadOnly?
    requires NeverOverlapping(cfg, Initial(cfg), steps, fcu.head) && Run(cfg, Initial(cfg), steps) == Some(m)
    requires Lru.Contains(m.shared.fcu, fcu) && IsDefinite(Lru.Peek(m.shared.fcu, fcu).value)
    ensures CachedFcu(cfg, m.shared, fcu, true).Some?
  {
    InitialCachesOk(cfg);
    RunKeepsOrder(cfg, Initial(cfg), steps, fcu.head);
  }

  // ----- which steps shadow ---------------------------------------------------------------------

  /** The step caches an indefinite reply for another triple with the head of `fcu`. */
  ghost predicate Shadows(m: Machine, step: Step, fcu: Forkchoice) {
    && step.Proceed? && step.tid in m.tasks && m.tasks[step.tid].pc.Publish?
    && m.tasks[step.tid].job.fcu.head == fcu.head
    && !IsDefinite(m.tasks[step.tid].pc.reply)
    && (var hit := Lru.Peek(m.shared.fcu, m.tasks[step.tid].job.fcu); hit.None? || !IsDefinite(hit.value))
  }

  /**
   * Under head-only and loose matching, a step hides a definite verdict that stays cached, and was not
   * hidden before, exactly if it caches an indefinite reply for another triple with its head.
   */
  lemma {:induction false} HiddenExactlyWhen(cfg: Config, m: Machine, step: Step, fcu: Forkchoice)
    requires !cfg.matching.Exact? && CachesOk(m.shared) && Enabled(m, step)
    requires Lru.Contains(m.shared.fcu, fcu) && IsDefinite(Lru.Peek(m.shared.fcu, fcu).value)
    requires NewestDefinite(m.shared.fcu, fcu.head)
    requires Lru.Contains(Apply(cfg, m, step).shared.fcu, fcu)
    ensures !NewestDefinite(Apply(cfg, m, step).shared.fcu, fcu.head) <==> Shadows(m, step, fcu)
    ensures Shadows(m, step, fcu) ==> m.tasks[step.tid].job.fcu != fcu
  {
    StepShared(cfg, m, step);
    ResidentHasFirst(Apply(cfg, m, step).shared.fcu.entries, fcu);
    if step.Proceed? && m.tasks[step.tid].pc.Publish? {
      var job, reply := m.tasks[step.tid].job, m.tasks[step.tid].pc.reply;
      FirstAfterPut(m.shared.fcu, job.fcu, reply, fcu.head);
      if Lru.Contains(m.shared.fcu, job.fcu) {
        FirstAfterTouch(m.shared.fcu, job.fcu, fcu.head);
      }
    }
  }
}
