/** A run in which, under exact matching, a client changes what the controller is told. */
module ExactWitnesses {
  import opened Types
  import opened Protocol
  import opened NonInterference
  import opened Runs
  import Lru

  // ----- deleting the client's steps -----------------------------------------------------------------

  predicate By(n: Machine, step: Step, clients: bool) {
    step.tid in n.tasks && n.tasks[step.tid].job.ClientFcu? == clients
  }

  /** Every step of the segment is by a task that is, or by one that is not, a client's forkchoice call. */
  ghost predicate AllBy(n: Machine, segment: seq<Step>, clients: bool) {
    forall i :: 0 <= i < |segment| ==> By(n, segment[i], clients)
  }

  lemma {:induction false} Appended<T>(a: seq<T>, b: seq<T>, c: seq<T>)
    ensures a + b + c == a + (b + c)
    ensures a + [] == a
  {
  }

  /** `end` follows `kept` in what is left after deleting, or nothing does. */
  ghost predicate Leaves(cfg: Config, all: seq<Step>, kept: seq<Step>, end: seq<Step>, clients: bool) {
    && Run(cfg, Initial(cfg), all).Some?
    && WithoutClients(cfg, Initial(cfg), all) == if clients then kept else kept + end
  }

  /** Deleting the clients' steps deletes an end of theirs, and keeps an end of others. */
  lemma {:induction false} DeletesEnd(cfg: Config, begin: seq<Step>, end: seq<Step>, all: seq<Step>, clients: bool,
      n: Machine, kept: seq<Step>)
    requires all == begin + end && Run(cfg, Initial(cfg), all) == Some(n) && AllBy(n, end, clients)
    requires Leaves(cfg, begin, kept, [], true)
    ensures Leaves(cfg, all, kept, end, clients)
    decreases |end|
  {
    if end == [] {
      assert all == begin;
      Appended(kept, [], []);
    } else {
      var init, shorter, last := SplitEnd(begin, end, all);
      AllByParts(n, end, shorter, last, clients);
      var before := DropsLast(cfg, all, init, last, clients, n);
      AllByBefore(cfg, init, shorter, clients, before, last, n);
      DeletesEnd(cfg, begin, shorter, init, clients, before, kept);
      LeavesMore(cfg, init, kept, shorter, clients, all, last, end);
    }
  }

  lemma {:induction false} LeavesMore(cfg: Config, init: seq<Step>, kept: seq<Step>, shorter: seq<Step>,
      clients: bool, all: seq<Step>, last: Step, end: seq<Step>)
    requires Leaves(cfg, init, kept, shorter, clients) && Run(cfg, Initial(cfg), all).Some? && end == shorter + [last]
    requires WithoutClients(cfg, Initial(cfg), all)
             == if clients then WithoutClients(cfg, Initial(cfg), init)
                 else WithoutClients(cfg, Initial(cfg), init) + [last]
    ensures Leaves(cfg, all, kept, end, clients)
  {
    Appended(kept, shorter, [last]);
  }

  lemma {:induction false} SplitEnd<T>(begin: seq<T>, end: seq<T>, all: seq<T>)
    returns (init: seq<T>, shorter: seq<T>, last: T)
    requires end != [] && all == begin + end
    ensures all == init + [last] && end == shorter + [last] && init == begin + shorter
    ensures forall i :: 0 <= i < |shorter| ==> shorter[i] in init
  {
    init, shorter, last := all[..|all| - 1], end[..|end| - 1], end[|end| - 1];
    assert init == begin + shorter;
    forall i | 0 <= i < |shorter| ensures shorter[i] in init {
      assert shorter[i] == init[|begin| + i];
    }
  }

  lemma {:induction false} AllByParts(n: Machine, end: seq<Step>, shorter: seq<Step>, last: Step, clients: bool)
    requires end == shorter + [last] && AllBy(n, end, clients)
    ensures AllBy(n, shorter, clients) && By(n, last, clients)
  {
    assert By(n, end[|shorter|], clients);
    forall i | 0 <= i < |shorter| ensures By(n, shorter[i], clients) {
      assert By(n, end[i], clients);
    }
  }

  /** What deleting does at the last step. */
  lemma {:induction false} DropsLast(cfg: Config, all: seq<Step>, init: seq<Step>, last: Step, clients: bool,
      n: Machine)
    returns (before: Machine)
    requires all == init + [last] && Run(cfg, Initial(cfg), all) == Some(n) && By(n, last, clients)
    ensures Run(cfg, Initial(cfg), init) == Some(before) && Enabled(before, last) && n == Apply(cfg, before, last)
    ensures WithoutClients(cfg, Initial(cfg), all)
            == if clients then WithoutClients(cfg, Initial(cfg), init)
                else WithoutClients(cfg, Initial(cfg), init) + [last]
  {
    assert all[..|all| - 1] == init;
    before := Run(cfg, Initial(cfg), init).value;
    StepShared(cfg, before, last);
  }

  lemma {:induction false} AllByBefore(cfg: Config, steps: seq<Step>, end: seq<Step>, clients: bool, m: Machine,
      step: Step, n: Machine)
    requires Run(cfg, Initial(cfg), steps) == Some(m) && forall i :: 0 <= i < |end| ==> end[i] in steps
    requires Enabled(m, step) && n == Apply(cfg, m, step) && AllBy(n, end, clients)
    ensures AllBy(m, end, clients)
  {
    StepShared(cfg, m, step);
    forall i | 0 <= i < |end| ensures By(m, end[i], clients) {
      assert By(n, end[i], clients);
      SteppedIsThere(cfg, steps, m, end[i]);
    }
  }

  lemma {:induction false} SteppedIsThere(cfg: Config, steps: seq<Step>, m: Machine, step: Step)
    requires Run(cfg, Initial(cfg), steps) == Some(m) && step in steps
    ensures step.tid in m.tasks
    decreases |steps|
  {
    var init, last := steps[..|steps| - 1], steps[|steps| - 1];
    var before := Run(cfg, Initial(cfg), init).value;
    StepShared(cfg, before, last);
    if step in init {
      SteppedIsThere(cfg, init, before, step);
    }
  }

  // ----- the run -------------------------------------------------------------------------------------

  /** A client asks about the first triple, which is next in line for eviction. */
  function Saver(): Job {
    ClientFcu(Triple(false, 0), None)
  }

  function SaverSteps(tid: nat): seq<Step> {
    [Spawn(tid, Saver()), Awake(tid, 0)] + [Acquire(tid), Proceed(tid)]
  }

  /** The controller calls about a new triple, and is told VALID. */
  function NewcomerSteps(tid: nat, n: nat): seq<Step> {
    AskSteps(tid, Call(false, n)) + ReplySteps(tid, VALID)
  }

  /** The controller calls about the first triple again. */
  function AgainSteps(tid: nat): seq<Step> {
    AskSteps(tid, Call(false, 0))
  }

  lemma {:induction false} HitSection(cfg: Config, sh: Shared, job: Job, definiteOnly: bool, at: Clock)
    requires cfg.matching.Exact? && IsFcu(job) && job.attributes.None? && Fits(job, Probe(definiteOnly, at))
    requires Lru.Peek(sh.fcu, job.fcu) == Some(VALID)
    ensures CriticalSection(cfg, sh, job, Probe(definiteOnly, at))
            == Effect(sh.(fcu := Lru.Touch(sh.fcu, job.fcu)), Finished(FcuDone(VALID, NotAsked)), None)
  {
  }

  lemma {:induction false} Saves(cfg: Settings, steps: seq<Step>, m: Machine, k: Hash, tid: nat)
    returns (more: seq<Step>, n: Machine)
    requires cfg.matching.Exact? && Trail(cfg, steps, m, k) && Unlocked(m) && tid !in m.tasks
    requires Lru.Peek(m.shared.fcu, Triple(false, 0)) == Some(VALID)
    ensures more == steps + SaverSteps(tid) && Trail(cfg, more, n, k) && Unlocked(n)
    ensures n.shared == m.shared.(fcu := Lru.Touch(m.shared.fcu, Triple(false, 0)))
    ensures n.tasks == m.tasks[tid := Task(Saver(), Finished(FcuDone(VALID, NotAsked)), false)]
  {
    var begun, at, definiteOnly;
    more, begun, at, definiteOnly := Begins(cfg, steps, m, k, tid, Saver());
    TrailEnd(cfg, steps, m, k);
    AllFree(begun);
    HitSection(cfg, m.shared, Saver(), definiteOnly, at);
    more, n := Turn(cfg, more, begun, k, tid, Saver(), Probe(definiteOnly, at),
                    Effect(m.shared.(fcu := Lru.Touch(m.shared.fcu, Triple(false, 0))),
                           Finished(FcuDone(VALID, NotAsked)), None));
    Overwritten(m.tasks, tid, begun.tasks[tid], n.tasks[tid]);
    FreeBut(m, n, tid, n.tasks[tid], FcuLock);
  }

  lemma {:induction false} ExactMiss(cfg: Config, sh: Shared, job: Job)
    requires cfg.matching.Exact? && job.ControllerFcu? && Lru.Peek(sh.fcu, job.fcu).None?
    ensures MissesAtOnce(cfg, sh, job)
  {
  }

  lemma {:induction false} NewcomerArrives(cfg: Settings, steps: seq<Step>, m: Machine, k: Hash, tid: nat, n: nat)
    returns (more: seq<Step>, after: Machine)
    requires cfg.matching.Exact? && Trail(cfg, steps, m, k) && Unlocked(m) && tid !in m.tasks
    requires Lru.Peek(m.shared.fcu, Triple(false, n)).None?
    ensures more == steps + NewcomerSteps(tid, n) && Trail(cfg, more, after, k) && Unlocked(after)
    ensures after.shared == m.shared.(fcu := Lru.Put(m.shared.fcu, Triple(false, n), VALID))
    ensures after.tasks == m.tasks[tid := Task(Call(false, n), RecordJustified(VALID), false)]
  {
    ExactMiss(cfg, m.shared, Call(false, n));
    more := Asks(cfg, steps, m, k, tid, Call(false, n));
    more, after := Replies(cfg, more, Asking(m, tid, Call(false, n)), k, tid, Call(false, n), VALID);
    Overwritten(m.tasks, tid, Asking(m, tid, Call(false, n)).tasks[tid], after.tasks[tid]);
  }

  /** With the first triple cached the second call about it ends at once. */
  lemma {:induction false} AgainHits(cfg: Settings, steps: seq<Step>, m: Machine, k: Hash, tid: nat)
    returns (more: seq<Step>, n: Machine)
    requires cfg.matching.Exact? && Trail(cfg, steps, m, k) && Unlocked(m) && tid !in m.tasks
    requires Lru.Peek(m.shared.fcu, Triple(false, 0)) == Some(VALID)
    ensures more == steps + AgainSteps(tid) && Trail(cfg, more, n, k)
    ensures n.tasks == m.tasks[tid := Task(Call(false, 0), Finished(FcuDone(VALID, NotAsked)), false)]
  {
    var started;
    more, started := Starts(cfg, steps, m, k, tid, Call(false, 0));
    AllFree(started);
    HitSection(cfg, m.shared, Call(false, 0), true, START);
    more, n := Turn(cfg, more, started, k, tid, Call(false, 0), Probe(true, START),
                    Effect(m.shared.(fcu := Lru.Touch(m.shared.fcu, Triple(false, 0))),
                           Finished(FcuDone(VALID, NotAsked)), None));
    Overwritten(m.tasks, tid, started.tasks[tid], n.tasks[tid]);
  }

  /** A full cache with the first triple last: the newcomer evicts it, unless a client has just asked about it. */
  lemma {:induction false} SavedOrEvicted(cache: FcuCache, last: Forkchoice, newcomer: Forkchoice)
    requires Lru.WellFormed(cache) && |cache.entries| == cache.capacity >= 2
    requires cache.entries[|cache.entries| - 1].0 == last && Lru.Peek(cache, last) == Some(VALID)
    requires !Lru.Contains(cache, newcomer)
    ensures !Lru.Contains(Lru.Put(cache, newcomer, VALID), last)
    ensures Lru.Peek(Lru.Put(Lru.Touch(cache, last), newcomer, VALID), last) == Some(VALID)
    ensures Lru.Peek(Lru.Touch(cache, last), newcomer).None?
  {
    Lru.PutEvictsLast(cache, newcomer, VALID);
    Lru.TouchFacts(cache, last);
    var write: Lru.Op<Forkchoice, PayloadStatus> := Lru.Written(newcomer, VALID);
    assert Lru.Others([write], last) <= {newcomer};
    Lru.SubsetSize({} + Lru.Others([write], last), {newcomer});
    Lru.HeldStep(Lru.Touch(cache, last), last, VALID, {}, write);
  }

  /** The cache is full of the first triples, and the very first is last. */
  lemma {:induction false} FullOfTriples(cfg: Settings, m: Machine)
    requires Filled(cfg, m, false, cfg.fcuCacheSize)
    ensures var n, cache := cfg.fcuCacheSize, m.shared.fcu;
            && |cache.entries| == cache.capacity == n
            && cache.entries[n - 1].0 == Triple(false, 0) && Lru.Peek(cache, Triple(false, 0)) == Some(VALID)
            && !Lru.Contains(cache, Triple(false, n))
            && Below(m, n)
  {
    TriplesFacts(false, cfg.fcuCacheSize, 0);
    TriplesFacts(false, cfg.fcuCacheSize, cfg.fcuCacheSize);
  }

  /** A run, and the run it becomes when the clients' steps are deleted. */
  ghost predicate Twins(cfg: Config, steps: seq<Step>, m: Machine, kept: seq<Step>, alone: Machine, k: Hash) {
    && Trail(cfg, steps, m, k) && Trail(cfg, kept, alone, k)
    && WithoutClients(cfg, Initial(cfg), steps) == kept
  }

  lemma {:induction false} TwinSegment(cfg: Config, steps: seq<Step>, m: Machine, kept: seq<Step>, alone: Machine,
      k: Hash, segment: seq<Step>, n: Machine, aloneAfter: Machine)
    requires Twins(cfg, steps, m, kept, alone, k) && Trail(cfg, steps + segment, n, k)
    requires Trail(cfg, kept + segment, aloneAfter, k) && AllBy(n, segment, false)
    ensures Twins(cfg, steps + segment, n, kept + segment, aloneAfter, k)
  {
    DeletesEnd(cfg, steps, segment, steps + segment, false, n, kept);
  }

  lemma {:induction false} OneBy(n: Machine, segment: seq<Step>, tid: nat, clients: bool)
    requires tid in n.tasks && n.tasks[tid].job.ClientFcu? == clients
    requires forall i :: 0 <= i < |segment| ==> segment[i].tid == tid
    ensures AllBy(n, segment, clients)
  {
  }

  lemma {:induction false} SegmentsAreOwn(tid: nat, n: nat)
    ensures forall i :: 0 <= i < |SaverSteps(tid)| ==> SaverSteps(tid)[i].tid == tid
    ensures forall i :: 0 <= i < |NewcomerSteps(tid, n)| ==> NewcomerSteps(tid, n)[i].tid == tid
    ensures forall i :: 0 <= i < |AgainSteps(tid)| ==> AgainSteps(tid)[i].tid == tid
  {
  }

  predicate Below(m: Machine, tid: nat) {
    forall other :: other in m.tasks ==> other < tid
  }

  /** The cache full, and nothing deleted yet. */
  lemma {:induction false} TwinsFilled(cfg: Settings, k: nat) returns (steps: seq<Step>, m: Machine)
    requires cfg.matching.Exact? && k > cfg.fcuCacheSize
    ensures Twins(cfg, steps, m, steps, m, k) && Filled(cfg, m, false, cfg.fcuCacheSize)
  {
    steps, m := Fill(cfg, k, false, cfg.fcuCacheSize);
    forall i | 0 <= i < |steps| ensures By(m, steps[i], false) {
      SteppedIsThere(cfg, steps, m, steps[i]);
    }
    assert Leaves(cfg, [], [], [], true);
    DeletesEnd(cfg, [], steps, steps, false, m, []);
  }

  /** The client asks, in the one run only. */
  lemma {:induction false} TwinsSaved(cfg: Settings, steps: seq<Step>, m: Machine, kept: seq<Step>, alone: Machine,
      k: Hash, tid: nat)
    returns (more: seq<Step>, n: Machine)
    requires cfg.matching.Exact? && Twins(cfg, steps, m, kept, alone, k) && Unlocked(m) && Below(m, tid)
    requires Lru.Peek(m.shared.fcu, Triple(false, 0)) == Some(VALID)
    ensures Twins(cfg, more, n, kept, alone, k) && Unlocked(n)
    ensures n.shared.fcu == Lru.Touch(m.shared.fcu, Triple(false, 0)) && Below(n, tid + 1)
  {
    more, n := Saves(cfg, steps, m, k, tid);
    SegmentsAreOwn(tid, 0);
    OneBy(n, SaverSteps(tid), tid, true);
    DeletesEnd(cfg, steps, SaverSteps(tid), more, true, n, kept);
  }

  /** The newcomer is published in both. */
  lemma {:induction false} TwinsNewcomer(cfg: Settings, steps: seq<Step>, m: Machine, kept: seq<Step>,
      alone: Machine, k: Hash, tid: nat, n: nat)
    returns (more: seq<Step>, after: Machine, moreKept: seq<Step>, aloneAfter: Machine)
    requires cfg.matching.Exact? && Twins(cfg, steps, m, kept, alone, k)
    requires Unlocked(m) && Below(m, tid) && Lru.Peek(m.shared.fcu, Triple(false, n)).None?
    requires Unlocked(alone) && Below(alone, tid) && Lru.Peek(alone.shared.fcu, Triple(false, n)).None?
    ensures Twins(cfg, more, after, moreKept, aloneAfter, k) && Unlocked(after) && Unlocked(aloneAfter)
    ensures after.shared.fcu == Lru.Put(m.shared.fcu, Triple(false, n), VALID)
    ensures aloneAfter.shared.fcu == Lru.Put(alone.shared.fcu, Triple(false, n), VALID)
    ensures Below(after, tid + 1) && Below(aloneAfter, tid + 1)
  {
    more, after := NewcomerArrives(cfg, steps, m, k, tid, n);
    moreKept, aloneAfter := NewcomerArrives(cfg, kept, alone, k, tid, n);
    SegmentsAreOwn(tid, n);
    OneBy(after, NewcomerSteps(tid, n), tid, false);
    TwinSegment(cfg, steps, m, kept, alone, k, NewcomerSteps(tid, n), after, aloneAfter);
  }

  /** The controller calls again about the first triple, which only the one run still has. */
  lemma {:induction false} TwinsAgain(cfg: Settings, steps: seq<Step>, m: Machine, kept: seq<Step>, alone: Machine,
      k: Hash, tid: nat)
    returns (more: seq<Step>, after: Machine, moreKept: seq<Step>, aloneAfter: Machine)
    requires cfg.matching.Exact? && Twins(cfg, steps, m, kept, alone, k)
    requires Unlocked(m) && Below(m, tid) && Lru.Peek(m.shared.fcu, Triple(false, 0)) == Some(VALID)
    requires Unlocked(alone) && Below(alone, tid) && Lru.Peek(alone.shared.fcu, Triple(false, 0)).None?
    ensures Twins(cfg, more, after, moreKept, aloneAfter, k)
    ensures tid in after.tasks && after.tasks[tid] == Task(Call(false, 0), Finished(FcuDone(VALID, NotAsked)), false)
    ensures tid in aloneAfter.tasks && aloneAfter.tasks[tid] == Task(Call(false, 0), CallEngine, false)
  {
    more, after := AgainHits(cfg, steps, m, k, tid);
    ExactMiss(cfg, alone.shared, Call(false, 0));
    moreKept := Asks(cfg, kept, alone, k, tid, Call(false, 0));
    aloneAfter := Asking(alone, tid, Call(false, 0));
    SegmentsAreOwn(tid, 0);
    OneBy(after, AgainSteps(tid), tid, false);
    TwinSegment(cfg, steps, m, kept, alone, k, AgainSteps(tid), after, aloneAfter);
  }

  /**
   * Clients do influence the controller. For every exact configuration with room for two triples there
   * is a run in which the controller's last call ends with a cached VALID, while in the same run with
   * the client's steps deleted that call has to ask the engine.
   */
  lemma {:induction false} ClientChangesController(cfg: Settings)
    returns (steps: seq<Step>, m: Machine, alone: Machine, call: nat)
    requires cfg.matching.Exact? && cfg.fcuCacheSize >= 2
    ensures Run(cfg, Initial(cfg), steps) == Some(m)
    ensures Run(cfg, Initial(cfg), WithoutClients(cfg, Initial(cfg), steps)) == Some(alone)
    ensures call in m.tasks && m.tasks[call] == Task(Call(false, 0), Finished(FcuDone(VALID, NotAsked)), false)
    ensures call in alone.tasks && alone.tasks[call] == Task(Call(false, 0), CallEngine, false)
  {
    var n, k := cfg.fcuCacheSize, cfg.fcuCacheSize + 1;
    call := n + 2;
    var filling, full := TwinsFilled(cfg, k);
    TrailEnd(cfg, filling, full, k);
    FirstIsAtStake(cfg, full);
    var saved, arrived, kept;
    steps, saved := TwinsSaved(cfg, filling, full, filling, full, k, n);
    steps, arrived, kept, alone := TwinsNewcomer(cfg, steps, saved, filling, full, k, n + 1, n);
    steps, m, kept, alone := TwinsAgain(cfg, steps, arrived, kept, alone, k, call);
  }

  lemma {:induction false} FirstIsAtStake(cfg: Settings, full: Machine)
    requires cfg.fcuCacheSize >= 2 && Reachable(cfg, full) && Filled(cfg, full, false, cfg.fcuCacheSize)
    ensures var n, cache, first := cfg.fcuCacheSize, full.shared.fcu, Triple(false, 0);
            && Lru.Peek(cache, first) == Some(VALID)
            && Lru.Peek(cache, Triple(false, n)).None? && Lru.Peek(Lru.Touch(cache, first), Triple(false, n)).None?
            && Lru.Peek(Lru.Put(cache, Triple(false, n), VALID), first).None?
            && Lru.Peek(Lru.Put(Lru.Touch(cache, first), Triple(false, n), VALID), first) == Some(VALID)
    ensures Unlocked(full) && Below(full, cfg.fcuCacheSize) && Below(full, cfg.fcuCacheSize + 1)
  {
    FullOfTriples(cfg, full);
    ReachableCachesOk(cfg, full);
    SavedOrEvicted(full.shared.fcu, Triple(false, 0), Triple(false, cfg.fcuCacheSize));
  }
}
