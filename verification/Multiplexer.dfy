/**
 * The multiplexer as the program holds it: caches updated in place under locks, and handlers that
 * await between. Every handler is shown to follow the transition system: whatever other handlers do
 * while it awaits, its own actions are steps of its task, so each handler call is part of a run.
 */
module Multiplexing {
  import opened Types
  import opened Json
  import opened PayloadIds
  import opened PayloadBuilding
  import opened NewPayloads
  import opened Protocol
  import FcuVerdicts
  import Locks
  import PayloadVerdicts
  import opened Service
  import Outcomes
  import Lru

  /** A call may also never be granted a lock it awaits, or panic; neither produces a reply. */
  datatype Attempt<T> = Suspended | Crashed | Completed(value: T)

  /** Readings of `start.elapsed()` at the head of a waiting loop, at least one sleep apart. */
  type Timer = readings: nat -> nat | forall i: nat :: Spaced(readings, i)
    ghost witness i => SLEEP_MILLIS * i

  predicate Spaced(readings: nat -> nat, i: nat) {
    readings(i) + SLEEP_MILLIS <= readings(i + 1)
  }

  // ----- which locks are free after a step -----------------------------------------------

  lemma {:induction false} FreeAfterAcquire(cfg: Config, m: Machine, tid: nat)
    requires Enabled(m, Acquire(tid))
    ensures forall l :: Free(Apply(cfg, m, Acquire(tid)), l) <==> Free(m, l) && l != LockOf(m.tasks[tid].pc).value
  {
    var n := Apply(cfg, m, Acquire(tid));
    var wanted := LockOf(m.tasks[tid].pc).value;
    assert Holds(n.tasks[tid]) == Holds(m.tasks[tid]) + {wanted};
    forall l ensures Free(n, l) <==> Free(m, l) && l != wanted {
      if Free(n, l) {
        assert l !in Holds(n.tasks[tid]);
        forall other | other in m.tasks ensures l !in Holds(m.tasks[other]) {
          assert other in n.tasks;
        }
      }
    }
  }

  lemma {:induction false} FreeAfterProceed(cfg: Config, m: Machine, tid: nat)
    requires Locks.Exclusive(m) && Enabled(m, Proceed(tid))
    ensures var n := Apply(cfg, m, Proceed(tid));
            forall l :: Free(n, l) <==> Free(m, l) || (l in Holds(m.tasks[tid]) && l !in Kept(n.tasks[tid].pc))
  {
    var n := Apply(cfg, m, Proceed(tid));
    StepShared(cfg, m, Proceed(tid));
    Locks.SectionOnlyReleases(cfg, m.shared, m.tasks[tid].job, m.tasks[tid].pc);
    assert Holds(n.tasks[tid]) == Kept(n.tasks[tid].pc);
    forall l ensures Free(n, l) <==> Free(m, l) || (l in Holds(m.tasks[tid]) && l !in Kept(n.tasks[tid].pc)) {
      if Free(n, l) && !Free(m, l) {
        var other :| other in m.tasks && l in Holds(m.tasks[other]);
        assert other in n.tasks;
      }
    }
  }

  /** Steps that neither take nor release a lock. */
  predicate Lockless(step: Step) {
    step.Spawn? || step.Answer? || step.Awake?
  }

  lemma {:induction false} FreeAfterLockless(cfg: Config, m: Machine, step: Step)
    requires Enabled(m, step) && Lockless(step)
    ensures forall l :: Free(Apply(cfg, m, step), l) <==> Free(m, l)
  {
    var n := Apply(cfg, m, step);
    StepShared(cfg, m, step);
    assert Holds(n.tasks[step.tid]) == {};
    assert step.tid in m.tasks ==> Holds(m.tasks[step.tid]) == {};
    forall l ensures Free(n, l) <==> Free(m, l) {
      if Free(n, l) {
        forall other | other in m.tasks ensures l !in Holds(m.tasks[other]) {
          assert other in n.tasks;
        }
      }
    }
  }

  /** What `Leave` does to the run and to the locks. */
  lemma {:induction false} SectionIsOver(cfg: Config, steps: seq<Step>, m: Machine, locked: set<Lock>, nextTid: nat,
      tid: nat,
      released: set<Lock>)
    requires Run(cfg, Initial(cfg), steps) == Some(m) && tid in m.tasks && m.tasks[tid].inside
    requires forall l :: l in locked <==> !Free(m, l)
    requires forall other :: other in m.tasks ==> other < nextTid
    requires var task := m.tasks[tid];
             released == Kept(task.pc) + {LockOf(task.pc).value}
                         - Kept(CriticalSection(cfg, m.shared, task.job, task.pc).pc)
    ensures var n := Apply(cfg, m, Proceed(tid));
            && Run(cfg, Initial(cfg), steps + [Proceed(tid)]) == Some(n)
            && (forall l :: l in locked - released <==> !Free(n, l))
            && (forall other :: other in n.tasks ==> other < nextTid)
            && tid in n.tasks && !n.tasks[tid].inside && n.tasks[tid].job == m.tasks[tid].job
  {
    Locks.RunKeepsExclusive(cfg, Initial(cfg), steps);
    FreeAfterProceed(cfg, m, tid);
    StepShared(cfg, m, Proceed(tid));
    RunSnoc(cfg, Initial(cfg), steps, Proceed(tid));
  }

  class Multiplexer {
    const cfg: Config
    const builder: PayloadBuilder
    var fcuCache: FcuCache
    var newPayloadCache: PayloadCache
    var justifiedBlockCache: HashCache
    var finalizedBlockCache: HashCache
    var locked: set<Lock>
    ghost var steps: seq<Step>
    ghost var now: Machine
    ghost var nextTid: nat

    function Model(): Shared
      reads this, builder
    {
      Shared(fcuCache, justifiedBlockCache, finalizedBlockCache, newPayloadCache, builder.Model())
    }

    /** The steps so far are a run, and the fields are in the state that run leads to. */
    ghost predicate Valid()
      reads this, builder
    {
      && Startable(cfg)
      && Run(cfg, Initial(cfg), steps) == Some(now)
      && now.shared == Model()
      && (forall l :: l in locked <==> !Free(now, l))
      && (forall tid :: tid in now.tasks ==> tid < nextTid)
    }

    /** The task exists and stands outside any critical section at this program counter. */
    ghost predicate At(tid: nat, job: Job, pc: Pc)
      reads this
    {
      tid in now.tasks && now.tasks[tid].job == job && now.tasks[tid].pc == pc && !now.tasks[tid].inside
    }

    /** The task has been granted the lock of this program counter. */
    ghost predicate Within(tid: nat, job: Job, pc: Pc)
      reads this
    {
      tid in now.tasks && now.tasks[tid].job == job && now.tasks[tid].pc == pc && now.tasks[tid].inside
    }

    constructor (cfg: Settings)
      ensures Valid() && this.cfg == cfg && steps == []
      ensures fcuCache.capacity == cfg.fcuCacheSize && newPayloadCache.capacity == cfg.newPayloadCacheSize
      ensures justifiedBlockCache.capacity == cfg.justifiedBlockCacheSize == finalizedBlockCache.capacity
      ensures builder.payloadAttributes.capacity == cfg.payloadBuilderCacheSize == builder.payloadInfo.capacity
      ensures fresh(builder)
    {
      this.cfg := cfg;
      builder := new PayloadBuilder(cfg.payloadBuilderCacheSize);
      fcuCache := Lru.Empty(cfg.fcuCacheSize);
      newPayloadCache := Lru.Empty(cfg.newPayloadCacheSize);
      justifiedBlockCache := Lru.Empty(cfg.justifiedBlockCacheSize);
      finalizedBlockCache := Lru.Empty(cfg.justifiedBlockCacheSize);
      locked := {};
      steps := [];
      now := Initial(cfg);
      nextTid := 0;
    }

    /** Start-up fails exactly when one of the sizes in use is zero. */
    static method Launch(cfg: Config) returns (multiplexer: Multiplexer?)
      ensures multiplexer == null <==>
              || cfg.fcuCacheSize == 0 || cfg.newPayloadCacheSize == 0
              || cfg.justifiedBlockCacheSize == 0 || cfg.payloadBuilderCacheSize == 0
      ensures multiplexer != null ==> fresh(multiplexer) && multiplexer.Valid() && multiplexer.cfg == cfg
    {
      if !Startable(cfg) {
        return null;
      }
      multiplexer := new Multiplexer(cfg);
    }

    // ----- awaiting ------------------------------------------------------------------

    /** Anything may happen at an await, except to the task that awaits. */
    method Yield(ghost tid: nat)
      requires Valid() && tid in now.tasks
      modifies this, builder
      ensures Valid() && old(steps) <= steps
      ensures tid in now.tasks && now.tasks[tid] == old(now.tasks[tid])
    {
    }

    ghost method Note(step: Step)
      requires Valid() && Enabled(now, step) && Lockless(step)
      requires step.Spawn? ==> step.tid < nextTid
      modifies this`steps, this`now
      ensures Valid() && old(steps) <= steps && now == Apply(cfg, old(now), step)
    {
      FreeAfterLockless(cfg, now, step);
      StepShared(cfg, now, step);
      RunSnoc(cfg, Initial(cfg), steps, step);
      steps := steps + [step];
      now := Apply(cfg, now, step);
    }

    ghost method Begin(job: Job) returns (tid: nat)
      requires Valid()
      modifies this`steps, this`now, this`nextTid
      ensures Valid() && old(steps) <= steps
      ensures tid !in old(now.tasks) && At(tid, job, Start(cfg, job).pc)
    {
      tid := nextTid;
      nextTid := nextTid + 1;
      Note(Spawn(tid, job));
    }

    /** Waits for the lock of the task's program counter. */
    method AwaitLock(ghost tid: nat, ghost job: Job, ghost pc: Pc, l: Lock) returns (granted: bool)
      requires Valid() && At(tid, job, pc) && LockOf(pc) == Some(l)
      modifies this, builder
      ensures Valid() && old(steps) <= steps
      ensures granted ==> Within(tid, job, pc)
    {
      Yield(tid);
      granted := l !in locked;
      if granted {
        FreeAfterAcquire(cfg, now, tid);
        RunSnoc(cfg, Initial(cfg), steps, Acquire(tid));
        locked := locked + {l};
        steps := steps + [Acquire(tid)];
        now := Apply(cfg, now, Acquire(tid));
      }
    }

    /** The critical section is over: its effect is in the fields, and these locks are let go. */
    method Leave(ghost tid: nat, ghost job: Job, ghost pc: Pc, released: set<Lock>, ghost next: Pc)
      requires Startable(cfg) && Run(cfg, Initial(cfg), steps) == Some(now)
      requires forall l :: l in locked <==> !Free(now, l)
      requires forall other :: other in now.tasks ==> other < nextTid
      requires Within(tid, job, pc)
      requires var effect := CriticalSection(cfg, now.shared, job, pc);
               Model() == effect.shared && next == effect.pc
      requires released == Kept(pc) + {LockOf(pc).value} - Kept(next)
      modifies this`locked, this`steps, this`now
      ensures Valid() && old(steps) <= steps && At(tid, job, next)
    {
      SectionIsOver(cfg, steps, now, locked, nextTid, tid, released);
      locked := locked - released;
      steps := steps + [Proceed(tid)];
      now := Apply(cfg, now, Proceed(tid));
    }

    // ----- forkchoice ------------------------------------------------------------------

    /** What a probe sees first. Under loose matching its lock is then kept. */
    method LookUpFcu(ghost tid: nat, ghost job: Job, ghost at: Clock, fcu: Forkchoice, definiteOnly: bool)
      returns (hit: Attempt<Option<PayloadStatus>>)
      requires Valid() && IsFcu(job) && job.fcu == fcu && At(tid, job, Probe(definiteOnly, at))
      modifies this, builder
      ensures Valid() && old(steps) <= steps && !hit.Crashed?
      ensures hit.Completed? ==>
                At(tid, job,
                   if hit.value.None? then AfterProbe(cfg, job, definiteOnly, at, None)
                   else if cfg.matching.Loose? then ProbeJustified(definiteOnly, at, hit.value.value)
                   else AfterProbe(cfg, job, definiteOnly, at, DefiniteEnough(definiteOnly, hit.value.value)))
    {
      var granted := AwaitLock(tid, job, Probe(definiteOnly, at), FcuLock);
      if !granted {
        return Suspended;
      }
      ghost var effect := CriticalSection(cfg, now.shared, job, Probe(definiteOnly, at));
      var found: Option<PayloadStatus>;
      if cfg.matching.Exact? {
        found := Lru.Peek(fcuCache, fcu);
        fcuCache := Lru.Touch(fcuCache, fcu);
      } else {
        found := FirstWithHead(fcuCache.entries, fcu.head);
      }
      Leave(tid, job, Probe(definiteOnly, at), if cfg.matching.Loose? && found.Some? then {} else {FcuLock}, effect.pc);
      return Completed(found);
    }

    method RemembersJustified(ghost tid: nat, ghost job: Job, ghost at: Clock, hash: Hash, definiteOnly: bool,
        ghost existing: PayloadStatus)
      returns (known: Attempt<bool>)
      requires Valid() && IsFcu(job) && job.fcu.safe == hash && At(tid, job, ProbeJustified(definiteOnly, at, existing))
      modifies this, builder
      ensures Valid() && old(steps) <= steps && !known.Crashed?
      ensures known.Completed? ==>
                At(tid, job, if known.value then ProbeFinalized(definiteOnly, at, existing)
                             else AfterProbe(cfg, job, definiteOnly, at, None))
    {
      var granted := AwaitLock(tid, job, ProbeJustified(definiteOnly, at, existing), JustifiedLock);
      if !granted {
        return Suspended;
      }
      ghost var effect := CriticalSection(cfg, now.shared, job, ProbeJustified(definiteOnly, at, existing));
      var contains := Lru.Contains(justifiedBlockCache, hash);
      var released := if contains then {JustifiedLock} else {FcuLock, JustifiedLock};
      Leave(tid, job, ProbeJustified(definiteOnly, at, existing), released, effect.pc);
      return Completed(contains);
    }

    method RemembersFinalized(ghost tid: nat, ghost job: Job, ghost at: Clock, hash: Hash, definiteOnly: bool,
        ghost existing: PayloadStatus)
      returns (known: Attempt<bool>)
      requires Valid() && IsFcu(job) && job.fcu.finalized == hash
               && At(tid, job, ProbeFinalized(definiteOnly, at, existing))
      modifies this, builder
      ensures Valid() && old(steps) <= steps && !known.Crashed?
      ensures known.Completed? ==>
                At(tid, job,
                    AfterProbe(cfg, job, definiteOnly, at, if known.value then DefiniteEnough(definiteOnly, existing)
                        else None))
    {
      var granted := AwaitLock(tid, job, ProbeFinalized(definiteOnly, at, existing), FinalizedLock);
      if !granted {
        return Suspended;
      }
      ghost var effect := CriticalSection(cfg, now.shared, job, ProbeFinalized(definiteOnly, at, existing));
      var contains := Lru.Contains(finalizedBlockCache, hash);
      Leave(tid, job, ProbeFinalized(definiteOnly, at, existing), {FcuLock, FinalizedLock}, effect.pc);
      return Completed(contains);
    }

    method GetCachedFcu(ghost tid: nat, ghost job: Job, ghost at: Clock, fcu: Forkchoice, definiteOnly: bool)
      returns (found: Attempt<Option<PayloadStatus>>)
      requires Valid() && IsFcu(job) && job.fcu == fcu && At(tid, job, Probe(definiteOnly, at))
      modifies this, builder
      ensures Valid() && old(steps) <= steps && !found.Crashed?
      ensures found.Completed? ==> At(tid, job, AfterProbe(cfg, job, definiteOnly, at, found.value))
      ensures found.Completed? && found.value.Some? && definiteOnly ==> Final(found.value.value)
    {
      var hit := LookUpFcu(tid, job, at, fcu, definiteOnly);
      if hit.Suspended? || hit.value.None? {
        return hit;
      }
      var existing := hit.value.value;
      var justAndFinOk := true;
      if cfg.matching.Loose? {
        var justified := RemembersJustified(tid, job, at, fcu.safe, definiteOnly, existing);
        if justified.Suspended? {
          return Suspended;
        }
        justAndFinOk := justified.value;
        if justAndFinOk {
          var finalized := RemembersFinalized(tid, job, at, fcu.finalized, definiteOnly, existing);
          if finalized.Suspended? {
            return Suspended;
          }
          justAndFinOk := finalized.value;
        }
      }
      if justAndFinOk {
        return Completed(DefiniteEnough(definiteOnly, existing));
      }
      return Completed(None);
    }

    /** Caches the engine's reply unless the verdict there is already definite; says whether it was cached. */
    method UpdateFcuCache(ghost tid: nat, ghost job: Job, fcu: Forkchoice, reply: PayloadStatus)
      returns (cached: Attempt<bool>)
      requires Valid() && job.ControllerFcu? && job.fcu == fcu && At(tid, job, Publish(reply))
      modifies this, builder
      ensures Valid() && old(steps) <= steps && !cached.Crashed?
      ensures cached.Completed? ==>
                At(tid, job, if cached.value && reply.verdict.Valid? then RecordJustified(reply)
                    else AfterStatus(cfg, job, reply))
    {
      var granted := AwaitLock(tid, job, Publish(reply), FcuLock);
      if !granted {
        return Suspended;
      }
      ghost var effect := CriticalSection(cfg, now.shared, job, Publish(reply));
      var hit := Lru.Peek(fcuCache, fcu);
      fcuCache := Lru.Touch(fcuCache, fcu);
      var update := hit.None? || !IsDefinite(hit.value);
      if update {
        WriteAfterTouch(now.shared.fcu, fcu, reply);
        fcuCache := Lru.Put(fcuCache, fcu, reply);
      }
      Leave(tid, job, Publish(reply), {FcuLock}, effect.pc);
      return Completed(update);
    }

    method RecordSafe(ghost tid: nat, ghost job: Job, hash: Hash, ghost reply: PayloadStatus)
      returns (done: Attempt<()>)
      requires Valid() && job.ControllerFcu? && job.fcu.safe == hash && At(tid, job, RecordJustified(reply))
      modifies this, builder
      ensures Valid() && old(steps) <= steps && !done.Crashed?
      ensures done.Completed? ==> At(tid, job, RecordFinalized(reply))
    {
      var granted := AwaitLock(tid, job, RecordJustified(reply), JustifiedLock);
      if !granted {
        return Suspended;
      }
      ghost var effect := CriticalSection(cfg, now.shared, job, RecordJustified(reply));
      justifiedBlockCache := Lru.Put(justifiedBlockCache, hash, ());
      Leave(tid, job, RecordJustified(reply), {JustifiedLock}, effect.pc);
      return Completed(());
    }

    method RecordFinal(ghost tid: nat, ghost job: Job, hash: Hash, ghost reply: PayloadStatus)
      returns (done: Attempt<()>)
      requires Valid() && job.ControllerFcu? && job.fcu.finalized == hash && At(tid, job, RecordFinalized(reply))
      modifies this, builder
      ensures Valid() && old(steps) <= steps && !done.Crashed?
      ensures done.Completed? ==> At(tid, job, AfterStatus(cfg, job, reply))
    {
      var granted := AwaitLock(tid, job, RecordFinalized(reply), FinalizedLock);
      if !granted {
        return Suspended;
      }
      ghost var effect := CriticalSection(cfg, now.shared, job, RecordFinalized(reply));
      finalizedBlockCache := Lru.Put(finalizedBlockCache, hash, ());
      Leave(tid, job, RecordFinalized(reply), {FinalizedLock}, effect.pc);
      return Completed(());
    }

    method RegisterForController(ghost tid: nat, ghost job: Job, head: Hash, attributes: PayloadAttributes,
        ghost status: PayloadStatus)
      returns (answer: Attempt<PayloadIdAnswer>)
      requires job.ControllerFcu? && job.fcu.head == head && job.attributes == Some(attributes)
      requires Valid() && At(tid, job, AfterStatus(cfg, job, status))
      modifies this, builder
      ensures Valid() && old(steps) <= steps
      ensures answer.Completed? ==>
              At(tid, job, Finished(FcuDone(status, answer.value))) && !answer.value.BuilderPanicked?
      ensures answer.Crashed? ==> At(tid, job, Finished(FcuDone(status, BuilderPanicked)))
      ensures answer.Completed? ==> !answer.value.NotKnown? && !answer.value.NotAsked?
    {
      if TimestampToSlot(cfg, attributes.timestamp).None? {
        return Completed(Refused(InvalidTimestamp));
      }
      var granted := AwaitLock(tid, job, Protocol.Attributes(status), BuilderLock);
      if !granted {
        return Suspended;
      }
      ghost var effect := CriticalSection(cfg, now.shared, job, Protocol.Attributes(status));
      var registration, build := builder.RegisterAttributes(cfg, head, attributes);
      Leave(tid, job, Protocol.Attributes(status), {BuilderLock}, effect.pc);
      match registration
      case Registered(id) => return Completed(Given(id));
      case Rejected(reason) => return Completed(Refused(reason));
      case Panicked => return Crashed;
    }

    method LookUpForClient(ghost tid: nat, ghost job: Job, head: Hash, attributes: PayloadAttributes,
        ghost status: PayloadStatus)
      returns (id: Attempt<Option<PayloadId>>)
      requires job.ClientFcu? && job.fcu.head == head && job.attributes == Some(attributes)
      requires Valid() && At(tid, job, Protocol.Attributes(status))
      modifies this, builder
      ensures Valid() && old(steps) <= steps && !id.Crashed?
      ensures id.Completed? ==>
              At(tid, job, Finished(FcuDone(status, if id.value.Some? then Given(id.value.value) else NotKnown)))
    {
      var granted := AwaitLock(tid, job, Protocol.Attributes(status), BuilderLock);
      if !granted {
        return Suspended;
      }
      ghost var effect := CriticalSection(cfg, now.shared, job, Protocol.Attributes(status));
      var found := builder.GetExistingPayloadId(head, attributes);
      Leave(tid, job, Protocol.Attributes(status), {BuilderLock}, effect.pc);
      return Completed(found);
    }

    /** The status for a controller: cached if definite, and otherwise the engine's, which is then cached. */
    method ControllerStatus(ghost tid: nat, ghost job: Job, fcu: Forkchoice, engine: Option<PayloadStatus>)
      returns (status: Attempt<Option<PayloadStatus>>)
      requires Valid() && job.ControllerFcu? && job.fcu == fcu && At(tid, job, Probe(true, START))
      modifies this, builder
      ensures Valid() && old(steps) <= steps && !status.Crashed?
      ensures status.Completed? ==>
                At(tid, job, if status.value.Some? then AfterStatus(cfg, job, status.value.value)
                    else Finished(EngineFailed))
      ensures status.Completed? && status.value.None? ==> engine.None?
      ensures status.Completed? && status.value.Some? ==> engine == status.value || Final(status.value.value)
    {
      var cached := GetCachedFcu(tid, job, START, fcu, true);
      if cached.Suspended? || cached.value.Some? {
        return cached;
      }
      Yield(tid);
      Note(Answer(tid, engine));
      if engine.None? {
        return Completed(None);
      }
      var published := PublishReply(tid, job, fcu, engine.value);
      return if published.Completed? then Completed(engine) else Suspended;
    }

    /** The engine's reply is cached and, if that is new and VALID, its safe and finalized hashes recorded. */
    method PublishReply(ghost tid: nat, ghost job: Job, fcu: Forkchoice, reply: PayloadStatus)
      returns (done: Attempt<()>)
      requires Valid() && job.ControllerFcu? && job.fcu == fcu && At(tid, job, Publish(reply))
      modifies this, builder
      ensures Valid() && old(steps) <= steps && !done.Crashed?
      ensures done.Completed? ==> At(tid, job, AfterStatus(cfg, job, reply))
    {
      var updated := UpdateFcuCache(tid, job, fcu, reply);
      if updated.Suspended? {
        return Suspended;
      }
      if updated.value && reply.verdict.Valid? {
        var justified := RecordSafe(tid, job, fcu.safe, reply);
        if justified.Suspended? {
          return Suspended;
        }
        var finalized := RecordFinal(tid, job, fcu.finalized, reply);
        if finalized.Suspended? {
          return Suspended;
        }
      }
      return Completed(());
    }

    /** The task ran to its end, and the caller was sent what its outcome says. */
    ghost predicate Concluded(tid: nat, job: Job, id: Id, r: Attempt<Reply>)
      reads this
    {
      && tid in now.tasks && now.tasks[tid].job == job && now.tasks[tid].pc.Finished?
      && Render(id, now.tasks[tid].pc.outcome) == if r.Completed? then Some(r.value) else None
    }

    method HandleControllerFcu(request: Request, engine: Option<PayloadStatus>)
      returns (r: Attempt<Reply>, ghost tid: nat)
      requires Valid()
      modifies this, builder
      ensures Valid() && old(steps) <= steps
      ensures r.Completed? ==> r.value.id == request.id
      ensures r.Completed? && request.name.ForkchoiceUpdated? && Routed(request.name) ==> Answers(r.value, request)
      ensures if ControllerFcuParams(request).None? then r == Completed(Error(request.id, ParseError))
              else !r.Suspended? ==> Concluded(tid, FcuJob(true, request), request.id, r)
      ensures r.Completed? ==> FcuReplyFits(request, engine, r.value)
    {
      tid := 0;
      var params := ControllerFcuParams(request);
      if params.None? {
        return Completed(Error(request.id, ParseError)), tid;
      }
      var fcu, attributes := params.value.fcu, Asked(params.value.attributes);
      ghost var job := ControllerFcu(fcu, attributes);
      ControllerFcuReads(request);
      tid := Begin(job);
      var status := ControllerStatus(tid, job, fcu, engine);
      if status.Suspended? {
        return Suspended, tid;
      }
      if status.value.None? {
        return Completed(Error(request.id, InvalidRequest)), tid;
      }
      r := ControllerReply(tid, job, request.id, fcu.head, attributes, status.value.value);
    }

    /**
     * A controller's update is answered with the engine's status or a final one. With attributes comes an
     * identifier that the builder issued for its own head and attributes, or the attributes are refused;
     * without, there is none. Otherwise its parameters could not be read, or the engine failed.
     */
    ghost predicate FcuReplyFits(request: Request, engine: Option<PayloadStatus>, reply: Reply)
      reads this
    {
      var params := ControllerFcuParams(request);
      if params.None? then reply == Error(request.id, ParseError)
      else
        var values := request.params.items.value;
        match reply
        case Response(id, FcuResult(status, payloadId)) =>
          && id == request.id && (engine == Some(status) || Final(status))
          && (payloadId.None? <==> values[1].isNull)
          && (payloadId.Some? ==>
                var key := (values[0].forkchoice.value.head, AttributesIn(true, request).value);
                IssuedFor(now.builds, key, payloadId.value))
        case Error(id, code) =>
          && id == request.id
          && ((code == InvalidRequest && engine.None?) || (code == InvalidPayloadAttributes && !values[1].isNull))
        case _ => false
    }

    /** The reply once the status is known: attributes are registered, if there are any, whatever the status. */
    method ControllerReply(ghost tid: nat, ghost job: Job, id: Id, head: Hash, attributes: Option<PayloadAttributes>,
        status: PayloadStatus)
      returns (r: Attempt<Reply>)
      requires job.ControllerFcu? && job.fcu.head == head && job.attributes == attributes
      requires Valid() && At(tid, job, AfterStatus(cfg, job, status))
      modifies this, builder
      ensures Valid() && old(steps) <= steps
      ensures !r.Suspended? ==> Concluded(tid, job, id, r)
      ensures r.Completed? ==>
                && r.value.id == id
                && (attributes.None? ==> r.value == Response(id, FcuResult(status, None)))
                && (attributes.Some? ==>
                      || r.value == Error(id, InvalidPayloadAttributes)
                      || (&& r.value.Response? && r.value.result.FcuResult? && r.value.result.status == status
                          && r.value.result.payloadId.Some?
                          && IssuedFor(now.builds, (head, attributes.value), r.value.result.payloadId.value)))
    {
      if attributes.None? {
        return Completed(Response(id, FcuResult(status, None)));
      }
      var answer := RegisterForController(tid, job, head, attributes.value, status);
      match answer
      case Suspended => return Suspended;
      case Crashed => return Crashed;
      case Completed(Given(payloadId)) =>
        Outcomes.GivenIdIsIssued(cfg, steps, now, tid, payloadId);
        return Completed(Response(id, FcuResult(status, Some(payloadId))));
      case Completed(_) => return Completed(Error(id, InvalidPayloadAttributes));
    }

    /** So many sleeps of full length have passed, and the last began in time. */
    static predicate SleptEnough(at: Clock, polls: nat, reading: nat, limit: nat) {
      && at.polls == polls && at.elapsed <= reading && SLEEP_MILLIS * polls <= reading
      && (polls > 0 ==> SLEEP_MILLIS * (polls - 1) < limit)
    }

    static lemma {:induction false} OneMoreSleep(timer: Timer, at: Clock, polls: nat, limit: nat)
      requires SleptEnough(at, polls, timer(polls), limit) && timer(polls) < limit
      ensures timer(polls) < timer(polls + 1)
      ensures SleptEnough(Clock(timer(polls) + SLEEP_MILLIS, polls + 1), polls + 1, timer(polls + 1), limit)
    {
      assert Spaced(timer, polls);
    }

    /** The head of a waiting loop: the clock decides whether a definite status is wanted or any. */
    ghost method ReadClock(tid: nat, job: Job, at: Clock, reading: nat)
      requires Valid() && (job.ClientFcu? || job.ClientNewPayload?) && At(tid, job, Poll(at)) && at.elapsed <= reading
      modifies this`steps, this`now
      ensures Valid() && old(steps) <= steps
      ensures job.ClientFcu? ==> At(tid, job, Probe(reading < cfg.fcuWaitMillis, Clock(reading, at.polls)))
      ensures job.ClientNewPayload? ==>
                At(tid, job, ProbePayload(reading < cfg.newPayloadWaitMillis, Clock(reading, at.polls)))
    {
      Note(Awake(tid, reading));
    }

    /** One turn of the waiting loop: a look for a definite status, followed by a sleep if there is none. */
    method PollFcu(ghost tid: nat, ghost job: Job, ghost at: Clock, polls: nat, fcu: Forkchoice, timer: Timer)
      returns (status: Attempt<Option<PayloadStatus>>, ghost next: Clock)
      requires Valid() && job.ClientFcu? && job.fcu == fcu && At(tid, job, Poll(at))
      requires SleptEnough(at, polls, timer(polls), cfg.fcuWaitMillis) && timer(polls) < cfg.fcuWaitMillis
      modifies this, builder
      ensures Valid() && old(steps) <= steps && !status.Crashed?
      ensures status.Completed? && status.value.Some? ==> At(tid, job, AfterStatus(cfg, job, status.value.value))
      ensures status.Completed? && status.value.None? ==> At(tid, job, Poll(next))
      ensures SleptEnough(next, polls + 1, timer(polls + 1), cfg.fcuWaitMillis) && timer(polls) < timer(polls + 1)
    {
      OneMoreSleep(timer, at, polls, cfg.fcuWaitMillis);
      next := Clock(timer(polls) + SLEEP_MILLIS, polls + 1);
      status := LookOnceForFcu(tid, job, at, fcu, timer(polls));
    }

    method LookOnceForFcu(ghost tid: nat, ghost job: Job, ghost at: Clock, fcu: Forkchoice, reading: nat)
      returns (status: Attempt<Option<PayloadStatus>>)
      requires Valid() && job.ClientFcu? && job.fcu == fcu && At(tid, job, Poll(at))
      requires at.elapsed <= reading < cfg.fcuWaitMillis
      modifies this, builder
      ensures Valid() && old(steps) <= steps && !status.Crashed?
      ensures status.Completed? && status.value.Some? ==> At(tid, job, AfterStatus(cfg, job, status.value.value))
      ensures status.Completed? && status.value.None? ==>
              At(tid, job, Poll(Clock(reading + SLEEP_MILLIS, at.polls + 1)))
    {
      ReadClock(tid, job, at, reading);
      status := GetCachedFcu(tid, job, Clock(reading, at.polls), fcu, true);
      if status.Completed? && status.value.None? {
        Yield(tid);
      }
    }

    /** Waits for a definite status; `None` when the time is up. The last sleep began before that. */
    method WaitForFcu(ghost tid: nat, ghost job: Job, fcu: Forkchoice, timer: Timer)
      returns (status: Attempt<Option<PayloadStatus>>, polls: nat, ghost at: Clock)
      requires Valid() && job.ClientFcu? && job.fcu == fcu && At(tid, job, Poll(START))
      modifies this, builder
      ensures Valid() && old(steps) <= steps && !status.Crashed?
      ensures status.Completed? && status.value.Some? ==> At(tid, job, AfterStatus(cfg, job, status.value.value))
      ensures status.Completed? && status.value.None? ==> At(tid, job, Probe(false, at))
      ensures polls > 0 ==> SLEEP_MILLIS * (polls - 1) < cfg.fcuWaitMillis
    {
      polls, at := 0, START;
      while timer(polls) < cfg.fcuWaitMillis
        invariant Valid() && old(steps) <= steps
        invariant At(tid, job, Poll(at)) && SleptEnough(at, polls, timer(polls), cfg.fcuWaitMillis)
        decreases cfg.fcuWaitMillis - timer(polls)
      {
        status, at := PollFcu(tid, job, at, polls, fcu, timer);
        if status.Suspended? || status.value.Some? {
          return;
        }
        polls := polls + 1;
      }
      ReadClock(tid, job, at, timer(polls));
      at := Clock(timer(polls), polls);
      status := Completed(None);
    }

    /** The status for a client: a definite one if it appears in time, else any, else the made-up SYNCING. */
    method ClientStatus(ghost tid: nat, ghost job: Job, fcu: Forkchoice, timer: Timer)
      returns (status: Attempt<PayloadStatus>)
      requires Valid() && job.ClientFcu? && job.fcu == fcu && At(tid, job, Poll(START))
      modifies this, builder
      ensures Valid() && old(steps) <= steps && !status.Crashed?
      ensures status.Completed? ==> At(tid, job, AfterStatus(cfg, job, status.value))
    {
      var found, polls, at := WaitForFcu(tid, job, fcu, timer);
      if found.Completed? && found.value.None? {
        found := GetCachedFcu(tid, job, at, fcu, false);
      }
      match found
      case Suspended => return Suspended;
      case Completed(Some(cached)) => return Completed(cached);
      case Completed(None) => return Completed(SYNTHETIC_SYNCING);
    }

    method HandleFcu(request: Request, timer: Timer) returns (r: Attempt<Reply>, ghost tid: nat)
      requires Valid()
      modifies this, builder
      ensures Valid() && old(steps) <= steps
      ensures r.Completed? ==> r.value.id == request.id
      ensures r.Completed? && request.name.ForkchoiceUpdated? && Routed(request.name) ==> Answers(r.value, request)
      ensures if ClientFcuParams(request).None? then r == Completed(Error(request.id, ParseError))
              else !r.Suspended? ==> !r.Crashed? && Concluded(tid, FcuJob(false, request), request.id, r)
      ensures r.Completed? && ClientFcuParams(request).Some? ==>
                && r.value.Response? && r.value.result.FcuResult?
                && (if request.params.items.value[1].isNull then r.value.result.payloadId.None?
                    else
                      var head := request.params.items.value[0].forkchoice.value.head;
                      RememberedId(cfg, steps, tid, (head, AttributesIn(false, request).value),
                          r.value.result.payloadId))
      ensures r.Completed? && r.value.Response? ==>
                && ClientFcuParams(request).Some? && r.value.result.FcuResult?
                && (|| r.value.result.status == SYNTHETIC_SYNCING
                    || FcuVerdicts.Justifies(cfg, now.history, ClientFcuParams(request).value.fcu,
                        r.value.result.status))
    {
      tid := 0;
      var params := ClientFcuParams(request);
      if params.None? {
        return Completed(Error(request.id, ParseError)), tid;
      }
      var job := ClientFcu(params.value.fcu, Asked(params.value.attributes));
      ClientFcuReads(request);
      tid := Begin(job);

      var answer := AnswerClient(tid, job, timer);
      if answer.Suspended? {
        return Suspended, tid;
      }
      AnswerIsTraced(tid);
      return Completed(Response(request.id, answer.value)), tid;
    }

    method AnswerClient(ghost tid: nat, job: Job, timer: Timer) returns (answer: Attempt<Result>)
      requires Valid() && job.ClientFcu? && At(tid, job, Poll(START))
      modifies this, builder
      ensures Valid() && old(steps) <= steps && !answer.Crashed?
      ensures answer.Completed? ==>
              answer.value.FcuResult? && Answered(tid, job, answer.value.status, answer.value.payloadId)
      ensures answer.Completed? ==>
                if job.attributes.None? then answer.value.payloadId.None?
                else RememberedId(cfg, steps, tid, (job.fcu.head, job.attributes.value), answer.value.payloadId)
    {
      var status := ClientStatus(tid, job, job.fcu, timer);
      if status.Suspended? {
        return Suspended;
      }
      if job.attributes.None? {
        return Completed(FcuResult(status.value, None));
      }
      var id := LookUpForClient(tid, job, job.fcu.head, job.attributes.value, status.value);
      if id.Suspended? {
        return Suspended;
      }
      IdIsRemembered(tid, job, id.value);
      return Completed(FcuResult(status.value, id.value));
    }

    lemma {:induction false} IdIsRemembered(tid: nat, job: Job, id: Option<PayloadId>)
      requires Valid() && tid in now.tasks && now.tasks[tid].job == job && job.ClientFcu? && job.attributes.Some?
      requires Outcomes.IsDone(now.tasks[tid].pc, if id.Some? then Given(id.value) else NotKnown)
      ensures RememberedId(cfg, steps, tid, (job.fcu.head, job.attributes.value), id)
    {
      var i, n := Outcomes.IdWasGiven(cfg, steps, now, tid, if id.Some? then Given(id.value) else NotKnown);
      assert Outcomes.Before(cfg, steps, i, n) && steps[i] == Proceed(tid);
    }

    /** A forkchoice task is over, with this status and identifier to send. */
    ghost predicate Answered(tid: nat, job: Job, status: PayloadStatus, payloadId: Option<PayloadId>)
      reads this
    {
      && tid in now.tasks && now.tasks[tid].job == job
      && now.tasks[tid].pc.Finished? && now.tasks[tid].pc.outcome.FcuDone?
      && now.tasks[tid].pc.outcome.status == status
      && (match now.tasks[tid].pc.outcome.payloadId
          case NotAsked => payloadId == None
          case NotKnown => payloadId == None
          case Given(id) => payloadId == Some(id)
          case _ => false)
    }

    lemma {:induction false} AnswerIsTraced(tid: nat)
      requires Valid() && tid in now.tasks && now.tasks[tid].job.ClientFcu?
      requires now.tasks[tid].pc.Finished? && now.tasks[tid].pc.outcome.FcuDone?
      ensures var status := now.tasks[tid].pc.outcome.status;
              status == SYNTHETIC_SYNCING || FcuVerdicts.Justifies(cfg, now.history, now.tasks[tid].job.fcu, status)
    {
      FcuVerdicts.ClientAnswersAreTraced(cfg, now, tid);
    }

    // ----- payloads --------------------------------------------------------------------

    method HighestCachedPayloadNumber() returns (highest: U64)
      ensures highest == Highest(newPayloadCache.entries)
    {
      var entries := newPayloadCache.entries;
      highest := 0;
      for i := 0 to |entries|
        invariant highest == Highest(entries[..i])
      {
        assert entries[..i + 1][..i] == entries[..i];
        if highest < entries[i].1.blockNumber {
          highest := entries[i].1.blockNumber;
        }
      }
      assert entries[..|entries|] == entries;
    }

    method IsRecentPayload(ghost tid: nat, ghost job: Job, blockNumber: U64) returns (recent: Attempt<bool>)
      requires Valid() && job.ClientNewPayload? && job.request.payload.blockNumber == blockNumber
               && At(tid, job, CheckRecent)
      modifies this, builder
      ensures Valid() && old(steps) <= steps && !recent.Crashed?
      ensures recent.Completed? ==> At(tid, job, if recent.value then Poll(START) else ProbePayload(false, START))
    {
      var granted := AwaitLock(tid, job, CheckRecent, NewPayloadLock);
      if !granted {
        return Suspended;
      }
      ghost var effect := CriticalSection(cfg, now.shared, job, CheckRecent);
      var highest := HighestCachedPayloadNumber();
      Leave(tid, job, CheckRecent, {NewPayloadLock}, effect.pc);
      return Completed(blockNumber >= SaturatingSub(highest, cfg.newPayloadWaitCutoff));
    }

    method GetCachedPayloadStatus(ghost tid: nat, ghost job: Job, ghost at: Clock, hash: Hash, definiteOnly: bool)
      returns (found: Attempt<Option<PayloadStatus>>)
      requires Valid() && IsNewPayload(job) && job.request.payload.blockHash == hash
      requires At(tid, job, ProbePayload(definiteOnly, at))
      modifies this, builder
      ensures Valid() && old(steps) <= steps && !found.Crashed?
      ensures found.Completed? ==> At(tid, job, AfterPayloadProbe(cfg, job, definiteOnly, at, found.value))
      ensures found.Completed? && found.value.Some? && definiteOnly ==> Final(found.value.value)
    {
      var granted := AwaitLock(tid, job, ProbePayload(definiteOnly, at), NewPayloadLock);
      if !granted {
        return Suspended;
      }
      ghost var effect := CriticalSection(cfg, now.shared, job, ProbePayload(definiteOnly, at));
      var existing := Lru.Peek(newPayloadCache, hash);
      newPayloadCache := Lru.Touch(newPayloadCache, hash);
      Leave(tid, job, ProbePayload(definiteOnly, at), {NewPayloadLock}, effect.pc);
      if existing.Some? && (!definiteOnly || IsDefinite(existing.value.status)) {
        return Completed(Some(existing.value.status));
      }
      return Completed(None);
    }

    /** The engine's verdict is cached over whatever was there. */
    method StoreVerdict(ghost tid: nat, ghost job: Job, payload: ExecutionPayload, reply: PayloadStatus)
      returns (done: Attempt<()>)
      requires Valid() && job.ControllerNewPayload? && job.request.payload == payload
               && At(tid, job, StorePayload(reply))
      modifies this, builder
      ensures Valid() && old(steps) <= steps && !done.Crashed?
      ensures done.Completed? ==>
              At(tid, job, if Dismissed(reply.verdict) then Finished(StatusDone(reply)) else RegisterPayload(reply))
    {
      var granted := AwaitLock(tid, job, StorePayload(reply), NewPayloadLock);
      if !granted {
        return Suspended;
      }
      ghost var effect := CriticalSection(cfg, now.shared, job, StorePayload(reply));
      newPayloadCache := Lru.Put(newPayloadCache, payload.blockHash, Entry(reply, payload.blockNumber));
      Leave(tid, job, StorePayload(reply), {NewPayloadLock}, effect.pc);
      return Completed(());
    }

    /** A payload the engine did not dismiss may be built upon. */
    method TrackPayload(ghost tid: nat, ghost job: Job, payload: ExecutionPayload, reply: PayloadStatus)
      returns (done: Attempt<()>)
      requires Valid() && job.ControllerNewPayload? && job.request.payload == payload
      requires At(tid, job, if Dismissed(reply.verdict) then Finished(StatusDone(reply)) else RegisterPayload(reply))
      modifies this, builder
      ensures Valid() && old(steps) <= steps && !done.Crashed?
      ensures done.Completed? ==> At(tid, job, Finished(StatusDone(reply)))
    {
      if Dismissed(reply.verdict) {
        return Completed(());
      }
      var granted := AwaitLock(tid, job, RegisterPayload(reply), BuilderLock);
      if !granted {
        return Suspended;
      }
      ghost var effect := CriticalSection(cfg, now.shared, job, RegisterPayload(reply));
      builder.RegisterCanonicalPayload(payload, reply.verdict);
      Leave(tid, job, RegisterPayload(reply), {BuilderLock}, effect.pc);
      return Completed(());
    }

    /** The verdict for a controller: cached if definite, and otherwise the engine's. */
    method ControllerVerdict(ghost tid: nat, ghost job: Job, payload: ExecutionPayload, engine: Option<PayloadStatus>)
      returns (status: Attempt<Option<PayloadStatus>>)
      requires Valid() && job.ControllerNewPayload? && job.request.payload == payload
               && At(tid, job, ProbePayload(true, START))
      modifies this, builder
      ensures Valid() && old(steps) <= steps && !status.Crashed?
      ensures status.Completed? ==>
                At(tid, job, Finished(if status.value.Some? then StatusDone(status.value.value) else EngineFailed))
      ensures status.Completed? && status.value.None? ==> engine.None?
      ensures status.Completed? && status.value.Some? ==> engine == status.value || Final(status.value.value)
    {
      var cached := GetCachedPayloadStatus(tid, job, START, payload.blockHash, true);
      if cached.Suspended? || cached.value.Some? {
        return cached;
      }
      Yield(tid);
      Note(Answer(tid, engine));
      if engine.None? {
        return Completed(None);
      }
      var kept := KeepVerdict(tid, job, payload, engine.value);
      return if kept.Completed? then Completed(engine) else Suspended;
    }

    /** The engine's verdict is cached, and its payload made known to the builder. */
    method KeepVerdict(ghost tid: nat, ghost job: Job, payload: ExecutionPayload, reply: PayloadStatus)
      returns (done: Attempt<()>)
      requires Valid() && job.ControllerNewPayload? && job.request.payload == payload
               && At(tid, job, StorePayload(reply))
      modifies this, builder
      ensures Valid() && old(steps) <= steps && !done.Crashed?
      ensures done.Completed? ==> At(tid, job, Finished(StatusDone(reply)))
    {
      done := StoreVerdict(tid, job, payload, reply);
      if done.Completed? {
        done := TrackPayload(tid, job, payload, reply);
      }
    }

    method HandleControllerNewPayload(request: Request, engine: Option<PayloadStatus>)
      returns (r: Attempt<Reply>, ghost tid: nat)
      requires Valid()
      modifies this, builder
      ensures Valid() && old(steps) <= steps
      ensures r.Completed? ==> r.value.id == request.id
      ensures r.Completed? && request.name.NewPayload? && Routed(request.name) ==> Answers(r.value, request)
      ensures request.name.NewPayload? && Routed(request.name) ==> !r.Crashed?
      ensures var decoded := DecodeNewPayload(cfg, request);
              if decoded.None? then r == Completed(Error(request.id, ParseError))
              else if RequestOf(decoded.value).None? then r == Crashed
              else !r.Suspended? ==> Concluded(tid, ControllerNewPayload(RequestOf(decoded.value).value), request.id, r)
      ensures r.Completed? && r.value.Response? ==>
                && r.value.result.StatusResult?
                && (engine == Some(r.value.result.status) || Final(r.value.result.status))
      ensures r.Completed? && r.value.Error? && r.value.code == InvalidRequest ==> engine.None?
    {
      tid := 0;
      var decoded := DecodeNewPayload(cfg, request);
      if decoded.None? {
        return Completed(Error(request.id, ParseError)), tid;
      }
      var parts := RequestOf(decoded.value);
      if parts.None? {
        return Crashed, tid;
      }
      ghost var job := ControllerNewPayload(parts.value);
      tid := Begin(job);
      r := PayloadReplyFor(tid, job, request.id, parts.value.payload, engine);
    }

    /** The reply to a controller's payload. */
    method PayloadReplyFor(ghost tid: nat, ghost job: Job, id: Id, payload: ExecutionPayload,
        engine: Option<PayloadStatus>)
      returns (r: Attempt<Reply>)
      requires Valid() && job.ControllerNewPayload? && job.request.payload == payload
               && At(tid, job, ProbePayload(true, START))
      modifies this, builder
      ensures Valid() && old(steps) <= steps && !r.Crashed?
      ensures r.Completed? ==> Concluded(tid, job, id, r)
      ensures r.Completed? ==>
                || (engine.None? && r.value == Error(id, InvalidRequest))
                || (&& r.value.Response? && r.value.id == id && r.value.result.StatusResult?
                    && (engine == Some(r.value.result.status) || Final(r.value.result.status)))
    {
      var status := ControllerVerdict(tid, job, payload, engine);
      match status
      case Suspended => return Suspended;
      case Completed(Some(verdict)) => return Completed(Response(id, StatusResult(verdict)));
      case Completed(None) => return Completed(Error(id, InvalidRequest));
    }

    /** One turn of the waiting loop for a payload. */
    method PollPayload(ghost tid: nat, ghost job: Job, ghost at: Clock, polls: nat, hash: Hash, timer: Timer)
      returns (status: Attempt<Option<PayloadStatus>>, ghost next: Clock)
      requires Valid() && job.ClientNewPayload? && job.request.payload.blockHash == hash && At(tid, job, Poll(at))
      requires SleptEnough(at, polls, timer(polls), cfg.newPayloadWaitMillis) && timer(polls) < cfg.newPayloadWaitMillis
      modifies this, builder
      ensures Valid() && old(steps) <= steps && !status.Crashed?
      ensures status.Completed? && status.value.Some? ==> At(tid, job, Finished(StatusDone(status.value.value)))
      ensures status.Completed? && status.value.None? ==> At(tid, job, Poll(next))
      ensures SleptEnough(next, polls + 1, timer(polls + 1), cfg.newPayloadWaitMillis)
              && timer(polls) < timer(polls + 1)
    {
      OneMoreSleep(timer, at, polls, cfg.newPayloadWaitMillis);
      next := Clock(timer(polls) + SLEEP_MILLIS, polls + 1);
      status := LookOnceForPayload(tid, job, at, hash, timer(polls));
    }

    method LookOnceForPayload(ghost tid: nat, ghost job: Job, ghost at: Clock, hash: Hash, reading: nat)
      returns (status: Attempt<Option<PayloadStatus>>)
      requires Valid() && job.ClientNewPayload? && job.request.payload.blockHash == hash && At(tid, job, Poll(at))
      requires at.elapsed <= reading < cfg.newPayloadWaitMillis
      modifies this, builder
      ensures Valid() && old(steps) <= steps && !status.Crashed?
      ensures status.Completed? && status.value.Some? ==> At(tid, job, Finished(StatusDone(status.value.value)))
      ensures status.Completed? && status.value.None? ==>
              At(tid, job, Poll(Clock(reading + SLEEP_MILLIS, at.polls + 1)))
    {
      ReadClock(tid, job, at, reading);
      status := GetCachedPayloadStatus(tid, job, Clock(reading, at.polls), hash, true);
      if status.Completed? && status.value.None? {
        Yield(tid);
      }
    }

    method WaitForPayload(ghost tid: nat, ghost job: Job, hash: Hash, timer: Timer)
      returns (status: Attempt<Option<PayloadStatus>>, polls: nat, ghost at: Clock)
      requires Valid() && job.ClientNewPayload? && job.request.payload.blockHash == hash && At(tid, job, Poll(START))
      modifies this, builder
      ensures Valid() && old(steps) <= steps && !status.Crashed?
      ensures status.Completed? && status.value.Some? ==> At(tid, job, Finished(StatusDone(status.value.value)))
      ensures status.Completed? && status.value.None? ==> At(tid, job, ProbePayload(false, at))
      ensures polls > 0 ==> SLEEP_MILLIS * (polls - 1) < cfg.newPayloadWaitMillis
    {
      polls, at := 0, START;
      while timer(polls) < cfg.newPayloadWaitMillis
        invariant Valid() && old(steps) <= steps
        invariant At(tid, job, Poll(at)) && SleptEnough(at, polls, timer(polls), cfg.newPayloadWaitMillis)
        decreases cfg.newPayloadWaitMillis - timer(polls)
      {
        status, at := PollPayload(tid, job, at, polls, hash, timer);
        if status.Suspended? || status.value.Some? {
          return;
        }
        polls := polls + 1;
      }
      ReadClock(tid, job, at, timer(polls));
      at := Clock(timer(polls), polls);
      status := Completed(None);
    }

    /** After the block hash check: a recent payload is worth waiting for. */
    method ClientVerdict(ghost tid: nat, ghost job: Job, payload: ExecutionPayload, timer: Timer)
      returns (status: Attempt<Option<PayloadStatus>>)
      requires Valid() && job.ClientNewPayload? && job.request.payload == payload && At(tid, job, CheckRecent)
      modifies this, builder
      ensures Valid() && old(steps) <= steps && !status.Crashed?
      ensures status.Completed? ==> At(tid, job, AfterPayloadProbe(cfg, job, false, START, status.value))
    {
      var recent := IsRecentPayload(tid, job, payload.blockNumber);
      if recent.Suspended? {
        return Suspended;
      }
      ghost var at := START;
      if recent.value {
        var polls;
        status, polls, at := WaitForPayload(tid, job, payload.blockHash, timer);
        if status.Suspended? || status.value.Some? {
          return;
        }
      }
      status := GetCachedPayloadStatus(tid, job, at, payload.blockHash, false);
    }

    method HandleNewPayload(request: Request, timer: Timer) returns (r: Attempt<Reply>, ghost tid: nat)
      requires Valid()
      modifies this, builder
      ensures Valid() && old(steps) <= steps
      ensures r.Completed? ==> r.value.id == request.id
      ensures r.Completed? && request.name.NewPayload? && Routed(request.name) ==> Answers(r.value, request)
      ensures request.name.NewPayload? && Routed(request.name) ==> !r.Crashed?
      ensures var decoded := DecodeNewPayload(cfg, request);
              if decoded.None? then r == Completed(Error(request.id, ParseError))
              else if RequestOf(decoded.value).None? then r == Crashed
              else !r.Suspended? ==> Concluded(tid, ClientNewPayload(RequestOf(decoded.value).value), request.id, r)
      ensures r.Completed? && r.value.Response? ==>
                && r.value.result.StatusResult?
                && VerdictJustified(RequestOf(DecodeNewPayload(cfg, request).value).value, r.value.result.status)
    {
      tid := 0;
      var decoded := DecodeNewPayload(cfg, request);
      if decoded.None? {
        return Completed(Error(request.id, ParseError)), tid;
      }
      var parts := RequestOf(decoded.value);
      if parts.None? {
        return Crashed, tid;
      }
      var job := ClientNewPayload(parts.value);
      tid := Begin(job);
      var verdict := CheckedVerdict(tid, job, timer);
      match verdict
      case Suspended => return Suspended, tid;
      case Completed(Some(status)) => return Completed(Response(request.id, StatusResult(status))), tid;
      case Completed(None) => return Completed(Error(request.id, InvalidRequest)), tid;
    }

    /** The verdict for a client; `None` if the block hash or the versioned hashes are wrong. */
    method CheckedVerdict(ghost tid: nat, job: Job, timer: Timer) returns (verdict: Attempt<Option<PayloadStatus>>)
      requires Valid() && job.ClientNewPayload? && At(tid, job, Start(cfg, job).pc)
      modifies this, builder
      ensures Valid() && old(steps) <= steps && !verdict.Crashed?
      ensures verdict.Completed? && verdict.value.None? ==>
                At(tid, job,
                    Finished(if cfg.blockHashVerifies(job.request) then VersionedHashMismatch else BlockHashMismatch))
      ensures verdict.Completed? && verdict.value.Some? ==>
                At(tid, job, Finished(StatusDone(verdict.value.value)))
                    && VerdictJustified(job.request, verdict.value.value)
    {
      if !cfg.blockHashVerifies(job.request) {
        return Completed(None);
      }
      verdict := ClientVerdict(tid, job, job.request.payload, timer);
      if verdict.Completed? && verdict.value.None? && cfg.versionedHashesVerify(job.request) {
        verdict := Completed(Some(SYNTHETIC_SYNCING));
      }
      if verdict.Completed? && verdict.value.Some? {
        VerdictIsTraced(tid);
      }
    }

    /** The request's block hash was verified, and the status is the engine's for it or made up after a second check. */
    ghost predicate VerdictJustified(request: NewPayloadRequest, status: PayloadStatus)
      reads this
    {
      && cfg.blockHashVerifies(request)
      && (|| PayloadVerdicts.HashReplied(now.history, request.payload.blockHash, status)
          || (status == SYNTHETIC_SYNCING && cfg.versionedHashesVerify(request)))
    }

    lemma {:induction false} VerdictIsTraced(tid: nat)
      requires Valid() && tid in now.tasks && now.tasks[tid].job.ClientNewPayload?
      requires now.tasks[tid].pc.Finished? && now.tasks[tid].pc.outcome.StatusDone?
      ensures VerdictJustified(now.tasks[tid].job.request, now.tasks[tid].pc.outcome.status)
    {
      PayloadVerdicts.ClientAnswersAreTraced(cfg, now, tid);
    }

    method HandleGetPayload(request: Request) returns (r: Attempt<Reply>, ghost tid: nat)
      requires Valid()
      modifies this, builder
      ensures Valid() && old(steps) <= steps && !r.Crashed?
      ensures r.Completed? ==> r.value.id == request.id
      ensures r.Completed? && request.name.GetPayload? && Routed(request.name) ==> Answers(r.value, request)
      ensures if request.params.items.Some? && |request.params.items.value| == 1
                 && request.params.items.value[0].payloadId.Some? then
                !r.Suspended? ==>
                    Concluded(tid, FetchPayload(request.params.items.value[0].payloadId.value), request.id, r)
              else r == Completed(Error(request.id, ParseError))
    {
      tid := 0;
      var payloadId := PayloadIdParam(request);
      if payloadId.None? {
        return Completed(Error(request.id, ParseError)), tid;
      }
      tid := Begin(FetchPayload(payloadId.value));
      var fetched := FetchStored(tid, payloadId.value);
      match fetched
      case Suspended => return Suspended, tid;
      case Completed(None) => return Completed(Error(request.id, UnknownPayload)), tid;
      case Completed(Some(payload)) =>
        if payload.variant.FuluPayload? {
          assert false;
        }
        return Completed(Response(request.id, PayloadResult(payload))), tid;
    }

    method FetchStored(ghost tid: nat, id: PayloadId) returns (payload: Attempt<Option<ExecutionPayload>>)
      requires Valid() && At(tid, FetchPayload(id), FetchFromBuilder)
      modifies this, builder
      ensures Valid() && old(steps) <= steps && !payload.Crashed?
      ensures payload.Completed? ==>
                At(tid, FetchPayload(id),
                    Finished(if payload.value.Some? then Fetched(payload.value.value) else NotFound))
      ensures payload.Completed? && payload.value.Some? ==> !payload.value.value.variant.FuluPayload?
    {
      var granted := AwaitLock(tid, FetchPayload(id), FetchFromBuilder, BuilderLock);
      if !granted {
        return Suspended;
      }
      ghost var effect := CriticalSection(cfg, now.shared, FetchPayload(id), FetchFromBuilder);
      NoFuluStored(id);
      var found := builder.GetPayload(id);
      Leave(tid, FetchPayload(id), FetchFromBuilder, {BuilderLock}, effect.pc);
      return Completed(found);
    }

    lemma {:induction false} NoFuluStored(id: PayloadId)
      requires Valid()
      ensures Lru.Contains(builder.payloads, id) ==> !Lru.Peek(builder.payloads, id).value.variant.FuluPayload?
    {
      PayloadVerdicts.BuilderAlwaysConsistent(cfg, now);
      if Lru.Contains(builder.payloads, id) {
        NeverFulu(cfg, builder.Model(), now.builds, PayloadVerdicts.Seen(now.history), id);
      }
    }
  }

  function Asked(attributes: Optional<PayloadAttributes>): Option<PayloadAttributes> {
    if attributes.Present? then Some(attributes.value) else None
  }

  /** Finding a key and then writing it is writing it. */
  lemma {:induction false} WriteAfterTouch<K, V>(cache: Lru.Cache<K, V>, key: K, value: V)
    ensures Lru.Put(Lru.Touch(cache, key), key, value) == Lru.Put(cache, key, value)
  {
    if Lru.Contains(cache, key) {
      var rest := Lru.Without(cache.entries, key);
      var touched := [(key, Lru.Peek(cache, key).value)] + rest;
      assert touched[1..] == rest;
    }
  }
}
