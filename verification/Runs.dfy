/** Runs from the initial state, put together from whole forkchoice calls. */
module Runs {
  import opened Types
  import opened PayloadBuilding
  import opened Protocol
  import opened Shadowing
  import Lru

  // ----- steps -------------------------------------------------------------------------------

  /** The safe hash 0 and the finalized hash `k` are not remembered at the same time. */
  predicate Apart(sh: Shared, k: Hash) {
    !(Lru.Contains(sh.justified, 0) && Lru.Contains(sh.finalized, k))
  }

  /** A run from the start to `m` in no state of which the two are together. */
  ghost predicate Trail(cfg: Config, steps: seq<Step>, m: Machine, k: Hash) {
    && Run(cfg, Initial(cfg), steps) == Some(m)
    && (forall i :: 0 <= i <= |steps| ==>
          && Run(cfg, Initial(cfg), steps[..i]).Some?
          && Apart(Run(cfg, Initial(cfg), steps[..i]).value.shared, k))
  }

  lemma {:induction false} TrailEnd(cfg: Config, steps: seq<Step>, m: Machine, k: Hash)
    requires Trail(cfg, steps, m, k)
    ensures Apart(m.shared, k) && Reachable(cfg, m)
  {
    assert steps[..|steps|] == steps;
  }

  lemma {:induction false} Extend(cfg: Config, steps: seq<Step>, m: Machine, k: Hash, step: Step)
    returns (more: seq<Step>)
    requires Trail(cfg, steps, m, k) && Enabled(m, step) && Apart(Apply(cfg, m, step).shared, k)
    ensures more == steps + [step] && Trail(cfg, more, Apply(cfg, m, step), k)
  {
    more := steps + [step];
    RunSnoc(cfg, Initial(cfg), steps, step);
    forall i | 0 <= i <= |more|
      ensures Run(cfg, Initial(cfg), more[..i]).Some? && Apart(Run(cfg, Initial(cfg), more[..i]).value.shared, k)
    {
      if i <= |steps| {
        assert more[..i] == steps[..i];
      } else {
        assert more[..i] == more;
      }
    }
  }

  /** A step that leaves the caches alone. */
  lemma {:induction false} Aside(cfg: Config, steps: seq<Step>, m: Machine, k: Hash, step: Step)
    returns (more: seq<Step>)
    requires Trail(cfg, steps, m, k) && Enabled(m, step) && !step.Proceed?
    ensures more == steps + [step] && Trail(cfg, more, Apply(cfg, m, step), k)
  {
    TrailEnd(cfg, steps, m, k);
    StepShared(cfg, m, step);
    more := Extend(cfg, steps, m, k, step);
  }

  /** A task is granted the free lock it awaits, and runs its critical section. */
  lemma {:induction false} Turn(cfg: Config, steps: seq<Step>, m: Machine, k: Hash, tid: nat, job: Job, pc: Pc,
      effect: Effect)
    returns (more: seq<Step>, n: Machine)
    requires Trail(cfg, steps, m, k) && tid in m.tasks && Fits(job, pc) && m.tasks[tid] == Task(job, pc, false)
    requires LockOf(pc).Some? && Free(m, LockOf(pc).value)
    requires effect == CriticalSection(cfg, m.shared, job, pc) && Apart(effect.shared, k)
    ensures more == steps + [Acquire(tid), Proceed(tid)] && Trail(cfg, more, n, k)
    ensures n.shared == effect.shared && n.builds == Extended(m.builds, effect.build) && n.history == m.history
    ensures Fits(job, effect.pc) && n.tasks == m.tasks[tid := Task(job, effect.pc, false)]
  {
    var granted := Apply(cfg, m, Acquire(tid));
    n := Apply(cfg, granted, Proceed(tid));
    more := Aside(cfg, steps, m, k, Acquire(tid));
    Overwritten(m.tasks, tid, granted.tasks[tid], n.tasks[tid]);
    more := Extend(cfg, more, granted, k, Proceed(tid));
  }

  lemma {:induction false} Overwritten(tasks: map<nat, Task>, tid: nat, before: Task, after: Task)
    ensures tasks[tid := before][tid := after] == tasks[tid := after]
  {
  }

  /** Nobody has a lock. */
  predicate Unlocked(m: Machine) {
    forall tid :: tid in m.tasks ==> Holds(m.tasks[tid]) == {}
  }

  lemma {:induction false} AllFree(m: Machine)
    requires Unlocked(m)
    ensures forall l :: Free(m, l)
  {
  }

  /** Nobody has a lock but, perhaps, one task. */
  lemma {:induction false} FreeBut(m: Machine, n: Machine, tid: nat, task: Task, l: Lock)
    requires Unlocked(m) && n.tasks == m.tasks[tid := task] && l !in Holds(task)
    ensures Free(n, l)
    ensures Holds(task) == {} ==> Unlocked(n)
  {
  }

  // ----- a controller call from start to end ---------------------------------------------------

  const VALID: PayloadStatus := PayloadStatus(Valid, None, None)

  function AskSteps(tid: nat, job: Job): seq<Step> {
    [Spawn(tid, job)] + [Acquire(tid), Proceed(tid)]
  }

  function AskSafeSteps(tid: nat, job: Job): seq<Step> {
    [Spawn(tid, job)] + [Acquire(tid), Proceed(tid)] + [Acquire(tid), Proceed(tid)]
  }

  function ReplySteps(tid: nat, reply: PayloadStatus): seq<Step> {
    [Answer(tid, Some(reply))] + [Acquire(tid), Proceed(tid)]
  }

  function RecordSteps(tid: nat): seq<Step> {
    [Acquire(tid), Proceed(tid)] + [Acquire(tid), Proceed(tid)]
  }

  lemma {:induction false} OwnSteps(tid: nat, job: Job, reply: PayloadStatus)
    ensures forall step :: step in AskSteps(tid, job) + ReplySteps(tid, reply) + RecordSteps(tid) ==> step.tid == tid
    ensures forall step :: step in AskSafeSteps(tid, job) + ReplySteps(tid, reply) ==> step.tid == tid
  {
  }

  /** The controller's first look at the cache finds nothing and reorders nothing. */
  predicate MissesAtOnce(cfg: Config, sh: Shared, job: Job)
    requires job.ControllerFcu?
  {
    CriticalSection(cfg, sh, job, Probe(true, START)) == Effect(sh, CallEngine, None)
  }

  /** The state in which a new task awaits the engine. */
  function Asking(m: Machine, tid: nat, job: Job): Machine
    requires job.ControllerFcu?
  {
    m.(tasks := m.tasks[tid := Task(job, CallEngine, false)])
  }

  lemma {:induction false} Starts(cfg: Config, steps: seq<Step>, m: Machine, k: Hash, tid: nat, job: Job)
    returns (more: seq<Step>, n: Machine)
    requires Trail(cfg, steps, m, k) && Unlocked(m) && tid !in m.tasks && job.ControllerFcu?
    ensures more == steps + [Spawn(tid, job)] && Trail(cfg, more, n, k) && Unlocked(n) && Apart(n.shared, k)
    ensures n == m.(tasks := m.tasks[tid := Task(job, Probe(true, START), false)])
  {
    TrailEnd(cfg, steps, m, k);
    more := Aside(cfg, steps, m, k, Spawn(tid, job));
    n := Apply(cfg, m, Spawn(tid, job));
    FreeBut(m, n, tid, n.tasks[tid], FcuLock);
  }

  lemma {:induction false} Asks(cfg: Config, steps: seq<Step>, m: Machine, k: Hash, tid: nat, job: Job)
    returns (more: seq<Step>)
    requires Trail(cfg, steps, m, k) && Unlocked(m) && tid !in m.tasks
    requires job.ControllerFcu? && MissesAtOnce(cfg, m.shared, job)
    ensures more == steps + AskSteps(tid, job) && Trail(cfg, more, Asking(m, tid, job), k)
            && Unlocked(Asking(m, tid, job))
  {
    var started, asking;
    more, started := Starts(cfg, steps, m, k, tid, job);
    AllFree(started);
    more, asking := Turn(cfg, more, started, k, tid, job, Probe(true, START), Effect(m.shared, CallEngine, None));
    Overwritten(m.tasks, tid, started.tasks[tid], asking.tasks[tid]);
    FreeBut(m, asking, tid, asking.tasks[tid], FcuLock);
  }

  lemma {:induction false} MissesEmpty(cfg: Config, sh: Shared, job: Job)
    requires job.ControllerFcu?
    requires Lru.Peek(sh.fcu, job.fcu).None? && FirstWithHead(sh.fcu.entries, job.fcu.head).None?
    ensures MissesAtOnce(cfg, sh, job)
  {
  }

  /** Under loose matching a lookup may find an entry with the head, and then miss for want of the safe hash. */
  lemma {:induction false} HeadSection(cfg: Config, sh: Shared, job: Job, definiteOnly: bool, at: Clock)
    requires cfg.matching.Loose? && IsFcu(job) && Fits(job, Probe(definiteOnly, at))
    requires FirstWithHead(sh.fcu.entries, job.fcu.head).Some?
    ensures CriticalSection(cfg, sh, job, Probe(definiteOnly, at))
            == Effect(sh, ProbeJustified(definiteOnly, at, FirstWithHead(sh.fcu.entries, job.fcu.head).value), None)
  {
  }

  lemma {:induction false} NoSafeSection(cfg: Config, sh: Shared, job: Job, at: Clock, existing: PayloadStatus)
    requires job.ControllerFcu? && !Lru.Contains(sh.justified, job.fcu.safe)
    ensures CriticalSection(cfg, sh, job, ProbeJustified(true, at, existing)) == Effect(sh, CallEngine, None)
  {
  }

  lemma {:induction false} AsksForSafe(cfg: Config, steps: seq<Step>, m: Machine, k: Hash, tid: nat, job: Job)
    returns (more: seq<Step>)
    requires cfg.matching.Loose? && Trail(cfg, steps, m, k) && Unlocked(m) && tid !in m.tasks && job.ControllerFcu?
    requires FirstWithHead(m.shared.fcu.entries, job.fcu.head).Some? && !Lru.Contains(m.shared.justified, job.fcu.safe)
    ensures more == steps + AskSafeSteps(tid, job)
    ensures Trail(cfg, more, Asking(m, tid, job), k) && Unlocked(Asking(m, tid, job))
  {
    var found, asking;
    var existing := FirstWithHead(m.shared.fcu.entries, job.fcu.head).value;
    more, found := FindsHead(cfg, steps, m, k, tid, job);
    NoSafeSection(cfg, m.shared, job, START, existing);
    more, asking :=
      Turn(cfg, more, found, k, tid, job, ProbeJustified(true, START, existing), Effect(m.shared, CallEngine, None));
    Overwritten(m.tasks, tid, found.tasks[tid], asking.tasks[tid]);
    FreeBut(m, asking, tid, asking.tasks[tid], FcuLock);
  }

  lemma {:induction false} FindsHead(cfg: Config, steps: seq<Step>, m: Machine, k: Hash, tid: nat, job: Job)
    returns (more: seq<Step>, n: Machine)
    requires cfg.matching.Loose? && Trail(cfg, steps, m, k) && Unlocked(m) && tid !in m.tasks && job.ControllerFcu?
    requires FirstWithHead(m.shared.fcu.entries, job.fcu.head).Some?
    ensures more == steps + [Spawn(tid, job)] + [Acquire(tid), Proceed(tid)] && Trail(cfg, more, n, k)
    ensures var existing := FirstWithHead(m.shared.fcu.entries, job.fcu.head).value;
            n == m.(tasks := m.tasks[tid := Task(job, ProbeJustified(true, START, existing), false)])
    ensures Free(n, JustifiedLock) && Apart(n.shared, k)
  {
    var started;
    var existing := FirstWithHead(m.shared.fcu.entries, job.fcu.head).value;
    more, started := Starts(cfg, steps, m, k, tid, job);
    AllFree(started);
    HeadSection(cfg, m.shared, job, true, START);
    more, n := Turn(cfg, more, started, k, tid, job, Probe(true, START),
                    Effect(m.shared, ProbeJustified(true, START, existing), None));
    Overwritten(m.tasks, tid, started.tasks[tid], n.tasks[tid]);
    FreeBut(m, n, tid, n.tasks[tid], JustifiedLock);
  }

  /** Where every run begins. */
  lemma {:induction false} AtStart(cfg: Config, k: Hash, job: Job)
    requires job.ControllerFcu?
    ensures Trail(cfg, [], Initial(cfg), k) && Unlocked(Initial(cfg)) && Initial(cfg).tasks == map[]
    ensures MissesAtOnce(cfg, Initial(cfg).shared, job) && News(Initial(cfg).shared, job.fcu)
    ensures !Lru.Contains(Initial(cfg).shared.finalized, k)
  {
    MissesEmpty(cfg, Initial(cfg).shared, job);
  }

  /** Where a call goes on after caching a reply that is news. */
  function AfterNews(cfg: Config, job: Job, reply: PayloadStatus): Pc
    requires job.ControllerFcu?
  {
    if reply.verdict.Valid? then RecordJustified(reply) else AfterStatus(cfg, job, reply)
  }

  predicate News(sh: Shared, fcu: Forkchoice) {
    var hit := Lru.Peek(sh.fcu, fcu);
    hit.None? || !IsDefinite(hit.value)
  }

  function PublishingNews(cfg: Config, sh: Shared, job: Job, reply: PayloadStatus): Effect
    requires job.ControllerFcu?
  {
    Effect(sh.(fcu := Lru.Put(sh.fcu, job.fcu, reply)), AfterNews(cfg, job, reply), None)
  }

  lemma {:induction false} NewsSection(cfg: Config, sh: Shared, job: Job, reply: PayloadStatus)
    requires job.ControllerFcu? && News(sh, job.fcu)
    ensures CriticalSection(cfg, sh, job, Publish(reply)) == PublishingNews(cfg, sh, job, reply)
    ensures Kept(AfterNews(cfg, job, reply)) == {} && Fits(job, AfterNews(cfg, job, reply))
  {
  }

  /** The engine replies, and that is cached. */
  lemma {:induction false} Replies(cfg: Config, steps: seq<Step>, m: Machine, k: Hash, tid: nat, job: Job,
      reply: PayloadStatus)
    returns (more: seq<Step>, n: Machine)
    requires Trail(cfg, steps, m, k) && Unlocked(m) && tid in m.tasks && job.ControllerFcu?
    requires m.tasks[tid] == Task(job, CallEngine, false) && News(m.shared, job.fcu)
    ensures more == steps + ReplySteps(tid, reply) && Trail(cfg, more, n, k) && Unlocked(n)
    ensures n.shared == m.shared.(fcu := Lru.Put(m.shared.fcu, job.fcu, reply))
    ensures n.tasks == m.tasks[tid := Task(job, AfterNews(cfg, job, reply), false)]
  {
    var answered;
    more, answered := IsAnswered(cfg, steps, m, k, tid, job, reply);
    NewsSection(cfg, m.shared, job, reply);
    AllFree(answered);
    more, n := Turn(cfg, more, answered, k, tid, job, Publish(reply), PublishingNews(cfg, m.shared, job, reply));
    Overwritten(m.tasks, tid, answered.tasks[tid], n.tasks[tid]);
    FreeBut(m, n, tid, n.tasks[tid], FcuLock);
  }

  lemma {:induction false} IsAnswered(cfg: Config, steps: seq<Step>, m: Machine, k: Hash, tid: nat, job: Job,
      reply: PayloadStatus)
    returns (more: seq<Step>, n: Machine)
    requires Trail(cfg, steps, m, k) && Unlocked(m) && tid in m.tasks && job.ControllerFcu?
    requires m.tasks[tid] == Task(job, CallEngine, false)
    ensures more == steps + [Answer(tid, Some(reply))] && Trail(cfg, more, n, k) && Unlocked(n) && Apart(n.shared, k)
    ensures n.shared == m.shared && n.tasks == m.tasks[tid := Task(job, Publish(reply), false)]
  {
    TrailEnd(cfg, steps, m, k);
    more := Aside(cfg, steps, m, k, Answer(tid, Some(reply)));
    n := Apply(cfg, m, Answer(tid, Some(reply)));
    FreeBut(m, n, tid, n.tasks[tid], FcuLock);
  }

  /** The call records its safe hash, and then its finalized hash. */
  lemma {:induction false} RecordsSafe(cfg: Config, steps: seq<Step>, m: Machine, k: Hash, tid: nat, job: Job)
    returns (more: seq<Step>, n: Machine)
    requires Trail(cfg, steps, m, k) && tid in m.tasks && job.ControllerFcu?
    requires m.tasks[tid] == Task(job, RecordJustified(VALID), false) && Free(m, JustifiedLock)
    requires Apart(m.shared.(justified := Lru.Put(m.shared.justified, job.fcu.safe, ())), k)
    ensures more == steps + [Acquire(tid), Proceed(tid)] && Trail(cfg, more, n, k)
    ensures n.shared == m.shared.(justified := Lru.Put(m.shared.justified, job.fcu.safe, ()))
    ensures n.tasks == m.tasks[tid := Task(job, RecordFinalized(VALID), false)]
  {
    var after := m.shared.(justified := Lru.Put(m.shared.justified, job.fcu.safe, ()));
    more, n := Turn(cfg, steps, m, k, tid, job, RecordJustified(VALID), Effect(after, RecordFinalized(VALID), None));
  }

  lemma {:induction false} RecordsFinalized(cfg: Config, steps: seq<Step>, m: Machine, k: Hash, tid: nat, job: Job)
    returns (more: seq<Step>, n: Machine)
    requires Trail(cfg, steps, m, k) && tid in m.tasks && job.ControllerFcu?
    requires m.tasks[tid] == Task(job, RecordFinalized(VALID), false) && Free(m, FinalizedLock)
    requires Apart(m.shared.(finalized := Lru.Put(m.shared.finalized, job.fcu.finalized, ())), k)
    ensures more == steps + [Acquire(tid), Proceed(tid)] && Trail(cfg, more, n, k)
    ensures n.shared == m.shared.(finalized := Lru.Put(m.shared.finalized, job.fcu.finalized, ()))
    ensures n.tasks == m.tasks[tid := Task(job, AfterStatus(cfg, job, VALID), false)]
  {
    var after := m.shared.(finalized := Lru.Put(m.shared.finalized, job.fcu.finalized, ()));
    more, n :=
        Turn(cfg, steps, m, k, tid, job, RecordFinalized(VALID), Effect(after, AfterStatus(cfg, job, VALID), None));
  }

  /** What recording the hashes of a triple does. */
  function Recorded(sh: Shared, fcu: Forkchoice): Shared {
    sh.(justified := Lru.Put(sh.justified, fcu.safe, ()), finalized := Lru.Put(sh.finalized, fcu.finalized, ()))
  }

  lemma {:induction false} StillApart(sh: Shared, fcu: Forkchoice, k: Hash)
    requires CachesOk(sh) && !Lru.Contains(sh.finalized, k) && fcu.finalized != k
    ensures Apart(sh.(justified := Lru.Put(sh.justified, fcu.safe, ())), k)
    ensures !Lru.Contains(Recorded(sh, fcu).finalized, k)
  {
    Lru.PutFacts(sh.finalized, fcu.finalized, ());
  }

  lemma {:induction false} RecordsSafeAlone(cfg: Settings, steps: seq<Step>, m: Machine, k: Hash, tid: nat, job: Job)
    returns (more: seq<Step>, n: Machine)
    requires Trail(cfg, steps, m, k) && Unlocked(m) && tid in m.tasks && job.ControllerFcu?
    requires m.tasks[tid] == Task(job, RecordJustified(VALID), false)
    requires !Lru.Contains(m.shared.finalized, k) && job.fcu.finalized != k
    ensures more == steps + [Acquire(tid), Proceed(tid)] && Trail(cfg, more, n, k) && Unlocked(n)
    ensures n.shared == m.shared.(justified := Lru.Put(m.shared.justified, job.fcu.safe, ()))
    ensures n.tasks == m.tasks[tid := Task(job, RecordFinalized(VALID), false)]
  {
    TrailEnd(cfg, steps, m, k);
    ReachableCachesOk(cfg, m);
    StillApart(m.shared, job.fcu, k);
    AllFree(m);
    more, n := RecordsSafe(cfg, steps, m, k, tid, job);
    FreeBut(m, n, tid, n.tasks[tid], FcuLock);
  }

  lemma {:induction false} RecordsFinalizedAlone(cfg: Settings, steps: seq<Step>, m: Machine, k: Hash, tid: nat,
      job: Job)
    returns (more: seq<Step>, n: Machine)
    requires Trail(cfg, steps, m, k) && Unlocked(m) && tid in m.tasks && job.ControllerFcu?
    requires m.tasks[tid] == Task(job, RecordFinalized(VALID), false)
    requires !Lru.Contains(m.shared.finalized, k) && job.fcu.finalized != k
    ensures more == steps + [Acquire(tid), Proceed(tid)] && Trail(cfg, more, n, k) && Unlocked(n)
    ensures n.shared == m.shared.(finalized := Lru.Put(m.shared.finalized, job.fcu.finalized, ()))
    ensures !Lru.Contains(n.shared.finalized, k)
    ensures n.tasks == m.tasks[tid := Task(job, AfterStatus(cfg, job, VALID), false)]
  {
    TrailEnd(cfg, steps, m, k);
    ReachableCachesOk(cfg, m);
    StillApart(m.shared, job.fcu, k);
    AllFree(m);
    more, n := RecordsFinalized(cfg, steps, m, k, tid, job);
    FreeBut(m, n, tid, n.tasks[tid], FcuLock);
  }

  /** With nobody in the way, and `k` neither remembered as finalized nor its own, both follow at once. */
  lemma {:induction false} Finishes(cfg: Settings, steps: seq<Step>, m: Machine, k: Hash, tid: nat, job: Job)
    returns (more: seq<Step>, n: Machine)
    requires Trail(cfg, steps, m, k) && Unlocked(m) && tid in m.tasks && job.ControllerFcu?
    requires m.tasks[tid] == Task(job, RecordJustified(VALID), false)
    requires !Lru.Contains(m.shared.finalized, k) && job.fcu.finalized != k
    ensures more == steps + RecordSteps(tid) && Trail(cfg, more, n, k) && Unlocked(n)
    ensures n.shared == Recorded(m.shared, job.fcu) && !Lru.Contains(n.shared.finalized, k)
    ensures n.tasks == m.tasks[tid := Task(job, AfterStatus(cfg, job, VALID), false)]
  {
    var safe;
    more, safe := RecordsSafeAlone(cfg, steps, m, k, tid, job);
    more, n := RecordsFinalizedAlone(cfg, more, safe, k, tid, job);
  }

  /** What a whole call with VALID does to the caches. */
  function Called(sh: Shared, fcu: Forkchoice): Shared {
    Recorded(sh.(fcu := Lru.Put(sh.fcu, fcu, VALID)), fcu)
  }

  /** A call that asks the engine, is told VALID, and records that. */
  lemma {:induction false} Completes(cfg: Settings, steps: seq<Step>, m: Machine, k: Hash, tid: nat, job: Job)
    returns (more: seq<Step>, n: Machine)
    requires Trail(cfg, steps, m, k) && Unlocked(m) && tid in m.tasks && job.ControllerFcu?
    requires m.tasks[tid] == Task(job, CallEngine, false) && News(m.shared, job.fcu)
    requires !Lru.Contains(m.shared.finalized, k) && job.fcu.finalized != k
    ensures more == steps + ReplySteps(tid, VALID) + RecordSteps(tid) && Trail(cfg, more, n, k) && Unlocked(n)
    ensures n.shared == Called(m.shared, job.fcu)
    ensures !Lru.Contains(n.shared.finalized, k)
    ensures n.tasks == m.tasks[tid := Task(job, AfterStatus(cfg, job, VALID), false)]
  {
    var published;
    more, published := Replies(cfg, steps, m, k, tid, job, VALID);
    more, n := Finishes(cfg, more, published, k, tid, job);
  }

  /** A call that misses at once, from start to end. */
  lemma {:induction false} Calls(cfg: Settings, steps: seq<Step>, m: Machine, k: Hash, tid: nat, job: Job)
    returns (more: seq<Step>, n: Machine)
    requires Trail(cfg, steps, m, k) && Unlocked(m) && tid !in m.tasks && job.ControllerFcu?
    requires MissesAtOnce(cfg, m.shared, job) && News(m.shared, job.fcu)
    requires !Lru.Contains(m.shared.finalized, k) && job.fcu.finalized != k
    ensures more == steps + AskSteps(tid, job) + ReplySteps(tid, VALID) + RecordSteps(tid)
    ensures Trail(cfg, more, n, k) && Unlocked(n) && n.shared == Called(m.shared, job.fcu)
    ensures n.tasks == m.tasks[tid := Task(job, AfterStatus(cfg, job, VALID), false)]
  {
    more := Asks(cfg, steps, m, k, tid, job);
    more, n := Completes(cfg, more, Asking(m, tid, job), k, tid, job);
    Overwritten(m.tasks, tid, Asking(m, tid, job).tasks[tid], n.tasks[tid]);
  }

  // ----- a client's call ----------------------------------------------------------------------------

  /** A client begins to look. */
  lemma {:induction false} Begins(cfg: Config, steps: seq<Step>, m: Machine, k: Hash, client: nat, job: Job)
    returns (more: seq<Step>, n: Machine, at: Clock, definiteOnly: bool)
    requires Trail(cfg, steps, m, k) && Unlocked(m) && client !in m.tasks && job.ClientFcu?
    ensures more == steps + [Spawn(client, job)] + [Awake(client, 0)]
    ensures Trail(cfg, more, n, k) && Unlocked(n) && n.shared == m.shared
    ensures n.tasks == m.tasks[client := Task(job, Probe(definiteOnly, at), false)]
  {
    more := Aside(cfg, steps, m, k, Spawn(client, job));
    var spawned := Apply(cfg, m, Spawn(client, job));
    more := Aside(cfg, more, spawned, k, Awake(client, 0));
    n := Apply(cfg, spawned, Awake(client, 0));
    at, definiteOnly := n.tasks[client].pc.at, n.tasks[client].pc.definiteOnly;
  }

  // ----- filling the caches ----------------------------------------------------------------------

  /** The triples of successive calls: all of one head, or each of its own. */
  function Triple(oneHead: bool, i: nat): Forkchoice {
    Forkchoice(if oneHead then 0 else i, i, i)
  }

  function Call(oneHead: bool, i: nat): Job {
    ControllerFcu(Triple(oneHead, i), None)
  }

  /** What the first `n` calls cached, the most recent first. */
  function Triples(oneHead: bool, n: nat): seq<(Forkchoice, PayloadStatus)> {
    if n == 0 then [] else [(Triple(oneHead, n - 1), VALID)] + Triples(oneHead, n - 1)
  }

  function Hashes(n: nat): seq<(Hash, ())> {
    if n == 0 then [] else [(n - 1, ())] + Hashes(n - 1)
  }

  lemma {:induction false} TriplesFacts(oneHead: bool, n: nat, i: nat)
    ensures |Triples(oneHead, n)| == n
    ensures Lru.Find(Triples(oneHead, n), Triple(oneHead, i)) == if i < n then Some(VALID) else None
    ensures !oneHead && i >= n ==> FirstWithHead(Triples(oneHead, n), i).None?
    ensures n > 0 ==> Triples(oneHead, n)[n - 1] == (Triple(oneHead, 0), VALID)
  {
    if n > 0 {
      TriplesFacts(oneHead, n - 1, i);
      assert Triples(oneHead, n)[1..] == Triples(oneHead, n - 1);
    }
  }

  lemma {:induction false} HashesFacts(n: nat, i: nat)
    ensures |Hashes(n)| == n
    ensures Lru.Find(Hashes(n), i) == if i < n then Some(()) else None
    ensures n > 0 ==> Hashes(n)[n - 1] == (0, ())
  {
    if n > 0 {
      HashesFacts(n - 1, i);
      assert Hashes(n)[1..] == Hashes(n - 1);
    }
  }

  /** The first `n` calls have ended, and nothing else has happened. */
  predicate Filled(cfg: Config, m: Machine, oneHead: bool, n: nat) {
    && m.shared.fcu == Lru.Cache(cfg.fcuCacheSize, Lru.Recent(Triples(oneHead, n), cfg.fcuCacheSize))
    && m.shared.justified == Lru.Cache(cfg.justifiedBlockCacheSize, Lru.Recent(Hashes(n), cfg.justifiedBlockCacheSize))
    && m.shared.finalized == Lru.Cache(cfg.justifiedBlockCacheSize, Lru.Recent(Hashes(n), cfg.justifiedBlockCacheSize))
    && (forall tid :: tid in m.tasks ==> tid < n && m.tasks[tid].job.ControllerFcu? && m.tasks[tid].pc.Finished?)
    && Unlocked(m)
  }

  /** The `p` most recent of them. */
  lemma {:induction false} RecentTriples(oneHead: bool, n: nat, p: nat, i: nat)
    requires p <= n
    ensures |Triples(oneHead, n)| == n
    ensures Lru.Find(Triples(oneHead, n)[..p], Triple(oneHead, i)) == if n - p <= i < n then Some(VALID) else None
  {
    TriplesFacts(oneHead, n, i);
    if p > 0 {
      RecentTriples(oneHead, n - 1, p - 1, i);
      var recent := Triples(oneHead, n)[..p];
      assert recent[0] == (Triple(oneHead, n - 1), VALID);
      assert recent[1..] == Triples(oneHead, n - 1)[..p - 1];
    }
  }

  lemma {:induction false} RecentHashes(n: nat, p: nat, i: nat)
    requires p <= n
    ensures |Hashes(n)| == n
    ensures Lru.Find(Hashes(n)[..p], i) == if n - p <= i < n then Some(()) else None
  {
    HashesFacts(n, i);
    if p > 0 {
      RecentHashes(n - 1, p - 1, i);
      var recent := Hashes(n)[..p];
      assert recent[0] == (n - 1, ());
      assert recent[1..] == Hashes(n - 1)[..p - 1];
    }
  }

  /** What the next call finds, and what it leaves. */
  lemma {:induction false} NextTriple(capacity: nat, oneHead: bool, n: nat)
    requires capacity > 0
    ensures var cache := Lru.Cache(capacity, Lru.Recent(Triples(oneHead, n), capacity));
            && Lru.Peek(cache, Triple(oneHead, n)).None?
            && (!oneHead || n == 0 ==> FirstWithHead(cache.entries, n).None?)
            && (oneHead && n > 0 ==> FirstWithHead(cache.entries, 0) == Some(VALID))
            && Lru.Put(cache, Triple(oneHead, n), VALID)
               == Lru.Cache(capacity, Lru.Recent(Triples(oneHead, n + 1), capacity))
  {
    var all := Triples(oneHead, n);
    TriplesFacts(oneHead, n, n);
    Lru.RecentPut(all, capacity, Triple(oneHead, n), VALID);
    RecentLacks(all, capacity, Triple(oneHead, n));
    if !oneHead && n > capacity && FirstWithHead(all[..capacity], n).Some? {
      FirstInPrefix(all, n, capacity);
    }
  }

  lemma {:induction false} RecentLacks<K, V>(entries: seq<(K, V)>, capacity: nat, key: K)
    requires Lru.Find(entries, key).None?
    ensures Lru.Find(Lru.Recent(entries, capacity), key).None?
  {
    if |entries| > capacity && Lru.Find(entries[..capacity], key).Some? {
      Lru.PrefixFind(entries, key, capacity);
    }
  }

  lemma {:induction false} NextHash(capacity: nat, n: nat, k: nat)
    requires capacity > 0 && n < k
    ensures var cache := Lru.Cache(capacity, Lru.Recent(Hashes(n), capacity));
            && !Lru.Contains(cache, n) && !Lru.Contains(cache, k)
            && Lru.Put(cache, n, ()) == Lru.Cache(capacity, Lru.Recent(Hashes(n + 1), capacity))
  {
    HashesFacts(n, n);
    HashesFacts(n, k);
    Lru.RecentPut(Hashes(n), capacity, n, ());
    RecentLacks(Hashes(n), capacity, n);
    RecentLacks(Hashes(n), capacity, k);
  }

  /** The next call asks the engine: at once, or for want of its safe hash. */
  lemma {:induction false} NextAsks(cfg: Settings, steps: seq<Step>, m: Machine, k: nat, oneHead: bool, n: nat)
    returns (more: seq<Step>)
    requires Trail(cfg, steps, m, k) && Filled(cfg, m, oneHead, n) && n < k && (oneHead ==> cfg.matching.Loose?)
    ensures Trail(cfg, more, Asking(m, n, Call(oneHead, n)), k) && Unlocked(Asking(m, n, Call(oneHead, n)))
    ensures News(m.shared, Triple(oneHead, n))
  {
    NextTriple(cfg.fcuCacheSize, oneHead, n);
    NextHash(cfg.justifiedBlockCacheSize, n, k);
    if oneHead && n > 0 {
      more := AsksForSafe(cfg, steps, m, k, n, Call(oneHead, n));
    } else {
      MissesEmpty(cfg, m.shared, Call(oneHead, n));
      more := Asks(cfg, steps, m, k, n, Call(oneHead, n));
    }
  }

  lemma {:induction false} FillOne(cfg: Settings, steps: seq<Step>, m: Machine, k: nat, oneHead: bool, n: nat)
    returns (more: seq<Step>, after: Machine)
    requires Trail(cfg, steps, m, k) && Filled(cfg, m, oneHead, n) && n < k && (oneHead ==> cfg.matching.Loose?)
    ensures Trail(cfg, more, after, k) && Filled(cfg, after, oneHead, n + 1)
  {
    more := NextAsks(cfg, steps, m, k, oneHead, n);
    NextHash(cfg.justifiedBlockCacheSize, n, k);
    more, after := Completes(cfg, more, Asking(m, n, Call(oneHead, n)), k, n, Call(oneHead, n));
    NextTriple(cfg.fcuCacheSize, oneHead, n);
  }

  /** For every configuration a run fills the caches with the triples and hashes of any number of calls. */
  lemma {:induction false} Fill(cfg: Settings, k: nat, oneHead: bool, n: nat) returns (steps: seq<Step>, m: Machine)
    requires n <= k && (oneHead ==> cfg.matching.Loose?)
    ensures Trail(cfg, steps, m, k) && Filled(cfg, m, oneHead, n)
  {
    if n == 0 {
      steps, m := [], Initial(cfg);
    } else {
      steps, m := Fill(cfg, k, oneHead, n - 1);
      steps, m := FillOne(cfg, steps, m, k, oneHead, n - 1);
    }
  }
}
