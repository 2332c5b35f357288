/** Runs from the initial state that show the failing cases of forkchoice lookups to be real. */
module Witnesses {
  import opened Types
  import opened Protocol
  import opened FcuVerdicts
  import opened Lookups
  import opened Shadowing
  import opened Staleness
  import opened Runs
  import Lru

  // ----- a triple outlives its safe hash -----------------------------------------------------------

  /** The hash caches are full, and one more call is about to record its hashes. */
  predicate Poised(cfg: Config, m: Machine, oneHead: bool, k: nat) {
    && m.shared.fcu == Lru.Cache(cfg.fcuCacheSize, Lru.Recent(Triples(oneHead, k + 1), cfg.fcuCacheSize))
    && m.shared.justified == Lru.Cache(k, Hashes(k)) && m.shared.finalized == Lru.Cache(k, Hashes(k))
    && k in m.tasks && m.tasks[k] == Task(Call(oneHead, k), RecordJustified(VALID), false)
    && (forall tid :: tid in m.tasks && tid != k ==> tid < k && m.tasks[tid].pc.Finished?)
  }

  lemma {:induction false} Poise(cfg: Settings, oneHead: bool, k: nat) returns (steps: seq<Step>, m: Machine)
    requires k == cfg.justifiedBlockCacheSize && (oneHead ==> cfg.matching.Loose?)
    ensures Trail(cfg, steps, m, k) && Poised(cfg, m, oneHead, k) && Unlocked(m)
  {
    var full;
    steps, full := Fill(cfg, k, oneHead, k);
    steps, m := PoiseFrom(cfg, steps, full, oneHead, k);
  }

  lemma {:induction false} PoiseFrom(cfg: Settings, steps: seq<Step>, full: Machine, oneHead: bool, k: nat)
    returns (more: seq<Step>, m: Machine)
    requires k == cfg.justifiedBlockCacheSize && (oneHead ==> cfg.matching.Loose?)
    requires Trail(cfg, steps, full, k) && Filled(cfg, full, oneHead, k)
    ensures Trail(cfg, more, m, k) && Poised(cfg, m, oneHead, k) && Unlocked(m)
  {
    HashesFacts(k, k);
    NextTriple(cfg.fcuCacheSize, oneHead, k);
    RecentLacks(Hashes(k), k, k);
    if oneHead {
      more := AsksForSafe(cfg, steps, full, k, k, Call(oneHead, k));
    } else {
      MissesEmpty(cfg, full.shared, Call(oneHead, k));
      more := Asks(cfg, steps, full, k, k, Call(oneHead, k));
    }
    more, m := Replies(cfg, more, Asking(full, k, Call(oneHead, k)), k, k, Call(oneHead, k), VALID);
  }

  /**
   * Whenever more triples fit than hashes, a run leads to where recording a newer hash makes the
   * first triple stale: it is cached as VALID, and its safe hash is next in line.
   */
  lemma {:induction false} StalenessIsReachable(cfg: Settings) returns (steps: seq<Step>, m: Machine, writer: nat)
    requires cfg.justifiedBlockCacheSize < cfg.fcuCacheSize
    ensures Run(cfg, Initial(cfg), steps) == Some(m) && Enabled(m, Proceed(writer))
    ensures !Stale(m, Safe, Triple(false, 0)) && Stale(Apply(cfg, m, Proceed(writer)), Safe, Triple(false, 0))
  {
    var poised;
    writer := cfg.justifiedBlockCacheSize;
    steps, poised := Poise(cfg, false, writer);
    m := IsGranted(cfg, poised, writer);
    steps := Aside(cfg, steps, poised, writer, Acquire(writer));
    TrailEnd(cfg, steps, m, writer);
    NextInLine(cfg, m, writer);
  }

  lemma {:induction false} IsGranted(cfg: Config, m: Machine, k: nat) returns (n: Machine)
    requires Poised(cfg, m, false, k) && Unlocked(m)
    ensures Enabled(m, Acquire(k)) && n == Apply(cfg, m, Acquire(k)) && n.shared == m.shared
    ensures k in n.tasks && n.tasks[k] == Task(Call(false, k), RecordJustified(VALID), true)
    ensures forall tid :: tid in n.tasks && tid != k ==> n.tasks[tid].pc.Finished?
    ensures n.shared.justified == Lru.Cache(k, Hashes(k))
    ensures n.shared.fcu.entries == Lru.Recent(Triples(false, k + 1), cfg.fcuCacheSize)
  {
    AllFree(m);
    n := Apply(cfg, m, Acquire(k));
  }

  lemma {:induction false} NextInLine(cfg: Settings, m: Machine, k: nat)
    requires Reachable(cfg, m) && k > 0 && k in m.tasks
             && m.tasks[k] == Task(Call(false, k), RecordJustified(VALID), true)
    requires k < cfg.fcuCacheSize && m.shared.fcu.entries == Lru.Recent(Triples(false, k + 1), cfg.fcuCacheSize)
    requires m.shared.justified == Lru.Cache(k, Hashes(k))
    requires forall tid :: tid in m.tasks && tid != k ==> m.tasks[tid].pc.Finished?
    ensures !Stale(m, Safe, Triple(false, 0)) && Stale(Apply(cfg, m, Proceed(k)), Safe, Triple(false, 0))
  {
    ReachableCachesOk(cfg, m);
    TriplesFacts(false, k + 1, 0);
    HashesFacts(k, k);
    BecomesStale(cfg, m, k, Safe, Triple(false, 0));
  }

  /**
   * A handler cancelled after its VALID was cached and before its hashes were recorded leaves a stale
   * triple, whatever the sizes.
   */
  lemma {:induction false} CancellationLeavesStale(cfg: Settings) returns (steps: seq<Step>, m: Machine)
    ensures Run(cfg, Initial(cfg), steps) == Some(m) && |steps| == 7
    ensures forall side :: Stale(m, side, Triple(false, 0))
  {
    var asked;
    var job := Call(false, 0);
    AtStart(cfg, 0, job);
    steps := Asks(cfg, [], Initial(cfg), 0, 0, job);
    steps, asked := Replies(cfg, steps, Asking(Initial(cfg), 0, job), 0, 0, job, VALID);
    steps := Aside(cfg, steps, asked, 0, Drop(0));
    m := Apply(cfg, asked, Drop(0));
  }

  // ----- a lookup that straddles -------------------------------------------------------------------

  /** Asks about the first triple's head and safe hash, and a finalized hash yet to come. */
  function Question(k: nat): Job {
    ClientFcu(Forkchoice(0, 0, k), None)
  }

  /** It finds an entry with the head. */
  lemma {:induction false} ClientFindsHead(cfg: Config, steps: seq<Step>, m: Machine, k: nat, client: nat)
    returns (more: seq<Step>, n: Machine, at: Clock, definiteOnly: bool)
    requires cfg.matching.Loose? && Trail(cfg, steps, m, k) && Unlocked(m) && client !in m.tasks
    requires FirstWithHead(m.shared.fcu.entries, 0) == Some(VALID)
    ensures Trail(cfg, more, n, k) && n.shared == m.shared && Free(n, JustifiedLock)
    ensures n.tasks == m.tasks[client := Task(Question(k), ProbeJustified(definiteOnly, at, VALID), false)]
  {
    var begun;
    more, begun, at, definiteOnly := Begins(cfg, steps, m, k, client, Question(k));
    TrailEnd(cfg, steps, m, k);
    AllFree(begun);
    HeadSection(cfg, m.shared, Question(k), definiteOnly, at);
    more, n := Turn(cfg, more, begun, k, client, Question(k), Probe(definiteOnly, at),
                    Effect(m.shared, ProbeJustified(definiteOnly, at, VALID), None));
    Overwritten(m.tasks, client, begun.tasks[client], n.tasks[client]);
    FreeBut(m, n, client, n.tasks[client], JustifiedLock);
  }

  lemma {:induction false} SafeSection(cfg: Config, sh: Shared, job: Job, definiteOnly: bool, at: Clock)
    requires job.ClientFcu? && Lru.Contains(sh.justified, job.fcu.safe)
    ensures CriticalSection(cfg, sh, job, ProbeJustified(definiteOnly, at, VALID))
            == Effect(sh, ProbeFinalized(definiteOnly, at, VALID), None)
  {
  }

  /** Its lookup gets past the check of the safe hash. */
  lemma {:induction false} PassesSafeCheck(cfg: Config, steps: seq<Step>, m: Machine, k: nat, client: nat)
    returns (more: seq<Step>, n: Machine, at: Clock, definiteOnly: bool)
    requires cfg.matching.Loose? && Trail(cfg, steps, m, k) && Unlocked(m) && client !in m.tasks
    requires FirstWithHead(m.shared.fcu.entries, 0) == Some(VALID) && Lru.Contains(m.shared.justified, 0)
    ensures Trail(cfg, more, n, k) && n.shared == m.shared
    ensures n.tasks == m.tasks[client := Task(Question(k), ProbeFinalized(definiteOnly, at, VALID), false)]
  {
    var found;
    more, found, at, definiteOnly := ClientFindsHead(cfg, steps, m, k, client);
    TrailEnd(cfg, steps, m, k);
    SafeSection(cfg, m.shared, Question(k), definiteOnly, at);
    more, n := Turn(cfg, more, found, k, client, Question(k), ProbeJustified(definiteOnly, at, VALID),
                    Effect(m.shared, ProbeFinalized(definiteOnly, at, VALID), None));
    Overwritten(m.tasks, client, found.tasks[client], n.tasks[client]);
  }

  /** The client has found the first safe hash, and the writer is about to evict it. */
  predicate HalfWay(m: Machine, k: nat, at: Clock, definiteOnly: bool) {
    && m.shared.justified == Lru.Cache(k, Hashes(k)) && m.shared.finalized == Lru.Cache(k, Hashes(k))
    && FirstWithHead(m.shared.fcu.entries, 0) == Some(VALID)
    && k in m.tasks && m.tasks[k] == Task(Call(true, k), RecordJustified(VALID), false)
    && k + 1 in m.tasks && m.tasks[k + 1] == Task(Question(k), ProbeFinalized(definiteOnly, at, VALID), false)
    && (forall tid :: tid in m.tasks && tid != k && tid != k + 1 ==> m.tasks[tid].pc.Finished?)
  }

  /** The writer has recorded its hashes, and the first safe hash is gone. */
  predicate Overridden(m: Machine, k: nat, at: Clock, definiteOnly: bool) {
    && !Lru.Contains(m.shared.justified, 0) && Lru.Contains(m.shared.finalized, k)
    && FirstWithHead(m.shared.fcu.entries, 0) == Some(VALID)
    && k + 1 in m.tasks && m.tasks[k + 1] == Task(Question(k), ProbeFinalized(definiteOnly, at, VALID), false)
    && (forall tid :: tid in m.tasks && tid != k + 1 ==> m.tasks[tid].pc.Finished?)
  }

  /**
   * Under every loose configuration lookups do straddle. The client finds the safe hash 0; then
   * another call's safe hash evicts it, and that call's finalized hash `k` is recorded; then the client
   * finds that too and is told VALID. In no state of the run were both remembered, and the lookup done
   * at once at its end would miss.
   */
  lemma {:induction false} LookupsCanStraddle(cfg: Settings) returns (steps: seq<Step>, m: Machine, client: nat)
    requires cfg.matching.Loose?
    ensures var k := cfg.justifiedBlockCacheSize;
            && Trail(cfg, steps, m, k)
            && client in m.tasks && m.tasks[client].job == Question(k) && m.tasks[client].inside
            && Straddles(m.shared, m.tasks[client].job, m.tasks[client].pc)
            && Apply(cfg, m, Proceed(client)).tasks[client].pc == Finished(FcuDone(VALID, NotAsked))
            && CachedFcu(cfg, m.shared, Question(k).fcu, m.tasks[client].pc.definiteOnly).None?
  {
    var k := cfg.justifiedBlockCacheSize;
    var passed, recorded, at, definiteOnly;
    client := k + 1;
    steps, passed, at, definiteOnly := FindsSafe(cfg, k);
    steps, recorded := WriterOverrides(cfg, steps, passed, k, at, definiteOnly);
    m := FindsFinalized(cfg, recorded, k, at, definiteOnly);
    steps := Aside(cfg, steps, recorded, k, Acquire(client));
  }

  lemma {:induction false} FindsSafe(cfg: Settings, k: nat)
    returns (steps: seq<Step>, m: Machine, at: Clock, definiteOnly: bool)
    requires cfg.matching.Loose? && k == cfg.justifiedBlockCacheSize
    ensures Trail(cfg, steps, m, k) && HalfWay(m, k, at, definiteOnly)
  {
    var poised;
    steps, poised := Poise(cfg, true, k);
    NextTriple(cfg.fcuCacheSize, true, k + 1);
    HashesFacts(k, 0);
    steps, m, at, definiteOnly := PassesSafeCheck(cfg, steps, poised, k, k + 1);
  }

  lemma {:induction false} WriterOverrides(cfg: Config, steps: seq<Step>, m: Machine, k: nat, at: Clock,
      definiteOnly: bool)
    returns (more: seq<Step>, n: Machine)
    requires Trail(cfg, steps, m, k) && k > 0 && HalfWay(m, k, at, definiteOnly)
    ensures Trail(cfg, more, n, k) && Overridden(n, k, at, definiteOnly)
  {
    OnlyFcuHeld(m, k, at, definiteOnly);
    more, n := WriterRecords(cfg, steps, m, k);
    IsOverridden(m, n, k, at, definiteOnly);
  }

  lemma {:induction false} OnlyFcuHeld(m: Machine, k: nat, at: Clock, definiteOnly: bool)
    requires HalfWay(m, k, at, definiteOnly)
    ensures forall tid :: tid in m.tasks ==> Holds(m.tasks[tid]) <= {FcuLock}
  {
  }

  lemma {:induction false} IsOverridden(m: Machine, n: Machine, k: nat, at: Clock, definiteOnly: bool)
    requires HalfWay(m, k, at, definiteOnly) && n.shared.fcu == m.shared.fcu
    requires !Lru.Contains(n.shared.justified, 0) && Lru.Contains(n.shared.finalized, k)
    requires n.tasks == m.tasks[k := Task(Call(true, k), Finished(FcuDone(VALID, NotAsked)), false)]
    ensures Overridden(n, k, at, definiteOnly)
  {
  }

  lemma {:induction false} WriterRecords(cfg: Config, steps: seq<Step>, m: Machine, k: nat)
    returns (more: seq<Step>, n: Machine)
    requires Trail(cfg, steps, m, k) && k > 0
    requires m.shared.justified == Lru.Cache(k, Hashes(k)) && m.shared.finalized == Lru.Cache(k, Hashes(k))
    requires k in m.tasks && m.tasks[k] == Task(Call(true, k), RecordJustified(VALID), false)
    requires forall tid :: tid in m.tasks ==> Holds(m.tasks[tid]) <= {FcuLock}
    ensures Trail(cfg, more, n, k)
    ensures n.shared.fcu == m.shared.fcu
    ensures !Lru.Contains(n.shared.justified, 0) && Lru.Contains(n.shared.finalized, k)
    ensures n.tasks == m.tasks[k := Task(Call(true, k), Finished(FcuDone(VALID, NotAsked)), false)]
  {
    var safe;
    EvictsFirst(k);
    FreeAbove(m, JustifiedLock);
    more, safe := RecordsSafe(cfg, steps, m, k, k, Call(true, k));
    FreeAbove(safe, FinalizedLock);
    more, n := RecordsFinalized(cfg, more, safe, k, k, Call(true, k));
  }

  lemma {:induction false} FreeAbove(m: Machine, l: Lock)
    requires l != FcuLock && forall tid :: tid in m.tasks ==> Holds(m.tasks[tid]) <= {FcuLock}
    ensures Free(m, l)
  {
  }

  /** The client is granted the finalized lock, and its lookup straddles. */
  lemma {:induction false} FindsFinalized(cfg: Config, m: Machine, k: nat, at: Clock, definiteOnly: bool)
    returns (n: Machine)
    requires cfg.matching.Loose? && Overridden(m, k, at, definiteOnly)
    ensures Enabled(m, Acquire(k + 1)) && n == Apply(cfg, m, Acquire(k + 1))
    ensures n.tasks[k + 1] == Task(Question(k), ProbeFinalized(definiteOnly, at, VALID), true)
    ensures Straddles(n.shared, n.tasks[k + 1].job, n.tasks[k + 1].pc)
    ensures Apply(cfg, n, Proceed(k + 1)).tasks[k + 1].pc == Finished(FcuDone(VALID, NotAsked))
    ensures CachedFcu(cfg, n.shared, Question(k).fcu, definiteOnly).None?
  {
    n := Apply(cfg, m, Acquire(k + 1));
  }

  lemma {:induction false} EvictsFirst(k: nat)
    requires k > 0
    ensures var put := Lru.Put(Lru.Cache(k, Hashes(k)), k, ());
            !Lru.Contains(put, 0) && Lru.Contains(put, k)
  {
    HashesFacts(k, k);
    Lru.RecentPut(Hashes(k), k, k, ());
    RecentHashes(k + 1, k, 0);
    RecentHashes(k + 1, k, k);
  }

  // ----- a definite verdict is hidden ----------------------------------------------------------------

  /** Cached as VALID, and missed by a lookup for a definite answer, behind an indefinite entry with its head. */
  predicate Hidden(cfg: Config, m: Machine, fcu: Forkchoice) {
    && Lru.Peek(m.shared.fcu, fcu) == Some(VALID)
    && !NewestDefinite(m.shared.fcu, fcu.head)
    && CachedFcu(cfg, m.shared, fcu, true).None?
  }

  /** The caches after VALID for one triple and then SYNCING for another with its head. */
  lemma {:induction false} IsHidden(cfg: Config, m: Machine, first: Forkchoice, second: Forkchoice)
    requires !cfg.matching.Exact? && cfg.fcuCacheSize >= 2 && first != second && first.head == second.head
    requires m.shared.fcu == Lru.Put(Lru.Put(Lru.Empty(cfg.fcuCacheSize), first, VALID), second, SYNTHETIC_SYNCING)
    ensures Hidden(cfg, m, first)
  {
    Lru.FirstPut(cfg.fcuCacheSize, first, VALID);
    Lru.WithoutAbsent([(first, VALID)], second);
    assert m.shared.fcu.entries == [(second, SYNTHETIC_SYNCING), (first, VALID)];
    assert m.shared.fcu.entries[1..] == [(first, VALID)];
    assert Lru.Find([(first, VALID)], first) == Some(VALID);
  }

  /**
   * Under head-only matching two overlapping calls for one head suffice, for any two triples with it
   * and every configuration with room for both: both ask the engine, one is told VALID and the other,
   * later, SYNCING.
   */
  lemma {:induction false} OverlapCanHide(cfg: Settings, first: Forkchoice, second: Forkchoice)
    returns (steps: seq<Step>, m: Machine)
    requires cfg.matching.HeadOnly? && cfg.fcuCacheSize >= 2 && first != second && first.head == second.head
    ensures Run(cfg, Initial(cfg), steps) == Some(m) && Hidden(cfg, m, first)
  {
    var one, two := ControllerFcu(first, None), ControllerFcu(second, None);
    var start := Initial(cfg);
    var published;
    AtStart(cfg, 0, one);
    AtStart(cfg, 0, two);
    steps := Asks(cfg, [], start, 0, 0, one);
    steps := Asks(cfg, steps, Asking(start, 0, one), 0, 1, two);
    var asking := Asking(Asking(start, 0, one), 1, two);
    steps, published := Replies(cfg, steps, asking, 0, 0, one, VALID);
    NotYetCached(cfg.fcuCacheSize, first, second);
    steps, m := Replies(cfg, steps, published, 0, 1, two, SYNTHETIC_SYNCING);
    IsHidden(cfg, m, first, second);
  }

  lemma {:induction false} NotYetCached(capacity: nat, first: Forkchoice, second: Forkchoice)
    requires first != second && capacity > 0
    ensures var one: FcuCache := Lru.Put(Lru.Empty(capacity), first, VALID);
            Lru.Peek(one, second).None? && FirstWithHead(one.entries, first.head) == Some(VALID)
  {
    Lru.FirstPut(capacity, first, VALID);
  }

  // ----- calls one after the other --------------------------------------------------------------------

  /** Steps of one task change no other. */
  lemma {:induction false} OthersUntouched(cfg: Config, m: Machine, steps: seq<Step>, tid: nat)
    requires Run(cfg, m, steps).Some? && forall step :: step in steps ==> step.tid == tid
    ensures var n := Run(cfg, m, steps).value;
            && n.tasks.Keys <= m.tasks.Keys + {tid}
            && (forall other :: other in m.tasks && other != tid ==>
                other in n.tasks && n.tasks[other] == m.tasks[other])
    decreases |steps|
  {
    if steps != [] {
      var init, last := steps[..|steps| - 1], steps[|steps| - 1];
      assert forall step :: step in init ==> step in steps;
      assert last in steps;
      OthersUntouched(cfg, m, init, tid);
      StepShared(cfg, Run(cfg, m, init).value, last);
    }
  }

  /** Task 0 takes its steps, and ends; then task 1 takes its own. So no two calls are ever in flight together. */
  lemma {:induction false} InTurnNeverOverlaps(cfg: Config, first: seq<Step>, second: seq<Step>, head: Hash)
    requires Run(cfg, Initial(cfg), first + second).Some?
    requires forall step :: step in first ==> step.tid == 0
    requires forall step :: step in second ==> step.tid == 1
    requires var mid := Run(cfg, Initial(cfg), first);
             mid.Some? && 0 in mid.value.tasks && mid.value.tasks[0].pc.Finished?
    ensures NeverOverlapping(cfg, Initial(cfg), first + second, head)
  {
    var all := first + second;
    forall i | 0 <= i <= |all|
      ensures Run(cfg, Initial(cfg), all[..i]).Some?
      ensures AtMostOneInFlight(Run(cfg, Initial(cfg), all[..i]).value, head)
    {
      PrefixRuns(cfg, Initial(cfg), all, i);
      if i <= |first| {
        assert all[..i] == first[..i];
        OthersUntouched(cfg, Initial(cfg), first[..i], 0);
      } else {
        var rest := second[..i - |first|];
        assert all[..i] == first + rest;
        RunConcat(cfg, Initial(cfg), first, rest);
        OthersUntouched(cfg, Initial(cfg), first, 0);
        OthersUntouched(cfg, Run(cfg, Initial(cfg), first).value, rest, 1);
      }
    }
  }

  lemma {:induction false} PrefixRuns(cfg: Config, m: Machine, steps: seq<Step>, i: nat)
    requires Run(cfg, m, steps).Some? && i <= |steps|
    ensures Run(cfg, m, steps[..i]).Some?
  {
    RunConcat(cfg, m, steps[..i], steps[i..]);
    assert steps[..i] + steps[i..] == steps;
  }

  /**
   * Under loose matching no overlap is needed. The first call ends; a second call for the same head,
   * with a safe hash not recorded yet, misses the cache, and is told SYNCING.
   */
  lemma {:induction false} NewSafeHashCanHide(cfg: Settings, first: Forkchoice, second: Forkchoice)
    returns (steps: seq<Step>, m: Machine)
    requires cfg.matching.Loose? && cfg.fcuCacheSize >= 2 && first.head == second.head && first.safe != second.safe
    ensures Run(cfg, Initial(cfg), steps) == Some(m) && Hidden(cfg, m, first)
    ensures NeverOverlapping(cfg, Initial(cfg), steps, first.head)
  {
    var k := first.finalized + 1;
    var called, done := FirstCallEnds(cfg, k, first);
    var rest := AskSafeSteps(1, ControllerFcu(second, None)) + ReplySteps(1, SYNTHETIC_SYNCING);
    steps, m := SecondCallHides(cfg, k, first, second, called, done);
    assert steps == called + rest;
    OwnSteps(0, ControllerFcu(first, None), VALID);
    OwnSteps(1, ControllerFcu(second, None), SYNTHETIC_SYNCING);
    InTurnNeverOverlaps(cfg, called, rest, first.head);
  }

  lemma {:induction false} FirstCallEnds(cfg: Settings, k: Hash, fcu: Forkchoice) returns (steps: seq<Step>, m: Machine)
    requires fcu.finalized != k
    ensures Trail(cfg, steps, m, k) && Unlocked(m)
    ensures steps == AskSteps(0, ControllerFcu(fcu, None)) + ReplySteps(0, VALID) + RecordSteps(0)
    ensures m.shared.fcu == Lru.Put(Lru.Empty(cfg.fcuCacheSize), fcu, VALID)
    ensures m.shared.justified == Lru.Put(Lru.Empty(cfg.justifiedBlockCacheSize), fcu.safe, ())
    ensures m.tasks.Keys == {0} && m.tasks[0].pc.Finished?
  {
    var job := ControllerFcu(fcu, None);
    AtStart(cfg, k, job);
    steps, m := Calls(cfg, [], Initial(cfg), k, 0, job);
  }

  lemma {:induction false} SecondCallHides(cfg: Settings, k: Hash, first: Forkchoice, second: Forkchoice,
      steps: seq<Step>, m: Machine)
    returns (more: seq<Step>, n: Machine)
    requires cfg.matching.Loose? && cfg.fcuCacheSize >= 2 && first.head == second.head && first.safe != second.safe
    requires Trail(cfg, steps, m, k) && Unlocked(m) && 1 !in m.tasks
    requires m.shared.fcu == Lru.Put(Lru.Empty(cfg.fcuCacheSize), first, VALID)
    requires m.shared.justified == Lru.Put(Lru.Empty(cfg.justifiedBlockCacheSize), first.safe, ())
    ensures more == steps + AskSafeSteps(1, ControllerFcu(second, None)) + ReplySteps(1, SYNTHETIC_SYNCING)
    ensures Run(cfg, Initial(cfg), more) == Some(n) && Hidden(cfg, n, first)
  {
    var job := ControllerFcu(second, None);
    NotYetCached(cfg.fcuCacheSize, first, second);
    Lru.FirstPut(cfg.justifiedBlockCacheSize, first.safe, ());
    more := AsksForSafe(cfg, steps, m, k, 1, job);
    more, n := Replies(cfg, more, Asking(m, 1, job), k, 1, job, SYNTHETIC_SYNCING);
    IsHidden(cfg, n, first, second);
  }
}
