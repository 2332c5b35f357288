/**
 * What each look at a cache leads to, told from the contents of the caches alone: which status a caller
 * goes on with, and when it asks the engine, waits, or is told something made up.
 */
module Answers {
  import opened Types
  import opened PayloadBuilding
  import opened NewPayloads
  import opened Protocol
  import Lru

  /** A look for a definite answer takes VALID, INVALID and INVALID_BLOCK_HASH; a last look takes anything. */
  predicate Taken(definiteOnly: bool, status: PayloadStatus) {
    !definiteOnly || status.verdict in {Valid, Invalid, InvalidBlockHash}
  }

  const MADE_UP: PayloadStatus := PayloadStatus(Syncing, None, None)

  // ----- newPayload ------------------------------------------------------------------------

  /**
   * A look for the verdict on a payload ends with the cached status if there is one and it is taken.
   * Otherwise a controller asks the engine, a client that has time left sleeps, and at its last look a
   * client is told SYNCING if the versioned hashes are right.
   */
  lemma {:induction false} PayloadLookAnswers(cfg: Config, m: Machine, tid: nat)
    requires Enabled(m, Proceed(tid)) && m.tasks[tid].pc.ProbePayload?
    ensures var job, pc := m.tasks[tid].job, m.tasks[tid].pc;
            var hit := Lru.Peek(m.shared.newPayload, job.request.payload.blockHash);
            var next := Apply(cfg, m, Proceed(tid)).tasks[tid].pc;
            if hit.Some? && Taken(pc.definiteOnly, hit.value.status) then next == Finished(StatusDone(hit.value.status))
            else if job.ControllerNewPayload? then next == CallEngine
            else if pc.definiteOnly then next == Poll(Clock(pc.at.elapsed + 50, pc.at.polls + 1))
            else if cfg.versionedHashesVerify(job.request) then next == Finished(StatusDone(MADE_UP))
            else next == Finished(VersionedHashMismatch)
  {
  }

  /** A client waits exactly if no cached payload is more than the cutoff ahead of its own. */
  lemma {:induction false} WaitsExactlyWhen(cfg: Config, m: Machine, tid: nat)
    requires Enabled(m, Proceed(tid)) && m.tasks[tid].pc.CheckRecent?
    ensures var number, entries := m.tasks[tid].job.request.payload.blockNumber, m.shared.newPayload.entries;
            var next := Apply(cfg, m, Proceed(tid)).tasks[tid].pc;
            if forall i :: 0 <= i < |entries| ==> entries[i].1.blockNumber <= number + cfg.newPayloadWaitCutoff then
              next == Poll(Clock(0, 0))
            else next == ProbePayload(false, Clock(0, 0))
  {
    RecencyIsArithmetic(cfg, m.shared.newPayload, m.tasks[tid].job.request.payload.blockNumber);
  }

  /**
   * The engine's verdict is stored with the payload's own number; a payload not called invalid is
   * passed on to the builder.
   */
  lemma {:induction false} VerdictIsStored(cfg: Config, m: Machine, tid: nat)
    requires CachesOk(m.shared) && Enabled(m, Proceed(tid)) && m.tasks[tid].pc.StorePayload?
    ensures var payload, reply := m.tasks[tid].job.request.payload, m.tasks[tid].pc.reply;
            var n := Apply(cfg, m, Proceed(tid));
            && Lru.Contains(n.shared.newPayload, payload.blockHash)
            && (var entry := Lru.Peek(n.shared.newPayload, payload.blockHash).value;
                entry.status == reply && entry.blockNumber == payload.blockNumber)
            && n.tasks[tid].pc == if reply.verdict in {Invalid, InvalidBlockHash} then Finished(StatusDone(reply))
                                  else RegisterPayload(reply)
  {
    var payload := m.tasks[tid].job.request.payload;
    Lru.PutFacts(m.shared.newPayload, payload.blockHash, Entry(m.tasks[tid].pc.reply, payload.blockNumber));
  }

  /** Then it can be built upon, as first described, and the caller is told the engine's verdict. */
  lemma {:induction false} PayloadIsTracked(cfg: Config, m: Machine, tid: nat)
    requires CachesOk(m.shared) && Enabled(m, Proceed(tid)) && m.tasks[tid].pc.RegisterPayload?
    ensures var payload, before := m.tasks[tid].job.request.payload, m.shared.builder.info;
            var n := Apply(cfg, m, Proceed(tid));
            && n.tasks[tid].pc == Finished(StatusDone(m.tasks[tid].pc.reply))
            && Lru.Contains(n.shared.builder.info, payload.blockHash)
            && (if Lru.Contains(before, payload.blockHash) then
                  Lru.Peek(n.shared.builder.info, payload.blockHash) == Lru.Peek(before, payload.blockHash)
                else Describes(Lru.Peek(n.shared.builder.info, payload.blockHash).value, payload))
  {
    FirstInfoIsKept(m.shared.builder, m.tasks[tid].job.request.payload);
  }

  // ----- forkchoiceUpdated -----------------------------------------------------------------

  /**
   * The caller is told this status; next, if it sent attributes, the builder is asked, unless they are a
   * controller's and their time lies outside the chain's slots.
   */
  ghost predicate GoesOnWith(cfg: Config, job: Job, status: PayloadStatus, next: Pc)
    requires IsFcu(job)
  {
    if job.attributes.None? then next == Finished(FcuDone(status, NotAsked))
    else if job.ControllerFcu?
            && (job.attributes.value.timestamp < cfg.genesisTime || cfg.secondsPerSlot == 0) then
      next == Finished(FcuDone(status, Refused(InvalidTimestamp)))
    else next == Attributes(status)
  }

  ghost predicate Misses(cfg: Config, job: Job, definiteOnly: bool, at: Clock, next: Pc)
    requires IsFcu(job)
  {
    if job.ControllerFcu? then next == CallEngine
    else if definiteOnly then next == Poll(Clock(at.elapsed + 50, at.polls + 1))
    else GoesOnWith(cfg, job, MADE_UP, next)
  }

  /** The first look is for the triple itself, or for the newest entry with its head. */
  lemma {:induction false} FirstLookAnswers(cfg: Config, m: Machine, tid: nat)
    requires Enabled(m, Proceed(tid)) && m.tasks[tid].pc.Probe?
    ensures var job, pc := m.tasks[tid].job, m.tasks[tid].pc;
            var hit := if cfg.matching == Exact then Lru.Peek(m.shared.fcu, job.fcu)
                       else FirstWithHead(m.shared.fcu.entries, job.fcu.head);
            var next := Apply(cfg, m, Proceed(tid)).tasks[tid].pc;
            if hit.None? then Misses(cfg, job, pc.definiteOnly, pc.at, next)
            else if cfg.matching == Loose then next == ProbeJustified(pc.definiteOnly, pc.at, hit.value)
            else if Taken(pc.definiteOnly, hit.value) then GoesOnWith(cfg, job, hit.value, next)
            else Misses(cfg, job, pc.definiteOnly, pc.at, next)
  {
  }

  /** Under loose matching the safe and the finalized hash must be remembered too. */
  lemma {:induction false} LaterLooksAnswer(cfg: Config, m: Machine, tid: nat)
    requires Enabled(m, Proceed(tid)) && (m.tasks[tid].pc.ProbeJustified? || m.tasks[tid].pc.ProbeFinalized?)
    ensures var job, pc := m.tasks[tid].job, m.tasks[tid].pc;
            var next := Apply(cfg, m, Proceed(tid)).tasks[tid].pc;
            if pc.ProbeJustified? && Lru.Contains(m.shared.justified, job.fcu.safe) then
              next == ProbeFinalized(pc.definiteOnly, pc.at, pc.existing)
            else if pc.ProbeFinalized? && Lru.Contains(m.shared.finalized, job.fcu.finalized)
                    && Taken(pc.definiteOnly, pc.existing) then
              GoesOnWith(cfg, job, pc.existing, next)
            else Misses(cfg, job, pc.definiteOnly, pc.at, next)
  {
  }

  /**
   * The controller is told the engine's reply, whether or not it is news to the cache. It is news unless
   * a definite verdict is cached for the triple; only news is cached, and only a VALID that is news has
   * its hashes recorded.
   */
  lemma {:induction false} ReplyIsPassedOn(cfg: Config, m: Machine, tid: nat)
    requires CachesOk(m.shared) && Enabled(m, Proceed(tid)) && m.tasks[tid].pc.Publish?
    ensures var job, reply := m.tasks[tid].job, m.tasks[tid].pc.reply;
            var before := Lru.Peek(m.shared.fcu, job.fcu);
            var news := before.None? || before.value.verdict in {Accepted, Syncing};
            var n := Apply(cfg, m, Proceed(tid));
            && Lru.Peek(n.shared.fcu, job.fcu) == (if news then Some(reply) else before)
            && n.shared.fcu.entries[0].0 == job.fcu
            && if news && reply.verdict == Valid then n.tasks[tid].pc == RecordJustified(reply)
               else GoesOnWith(cfg, job, reply, n.tasks[tid].pc)
  {
    Lru.PutFacts(m.shared.fcu, m.tasks[tid].job.fcu, m.tasks[tid].pc.reply);
    Lru.TouchFacts(m.shared.fcu, m.tasks[tid].job.fcu);
  }

  lemma {:induction false} HashesAreRecorded(cfg: Config, m: Machine, tid: nat)
    requires CachesOk(m.shared) && Enabled(m, Proceed(tid))
    requires m.tasks[tid].pc.RecordJustified? || m.tasks[tid].pc.RecordFinalized?
    ensures var job, pc, n := m.tasks[tid].job, m.tasks[tid].pc, Apply(cfg, m, Proceed(tid));
            if pc.RecordJustified? then
              && Lru.Contains(n.shared.justified, job.fcu.safe) && n.shared.finalized == m.shared.finalized
              && n.tasks[tid].pc == RecordFinalized(pc.reply)
            else
              && Lru.Contains(n.shared.finalized, job.fcu.finalized) && n.shared.justified == m.shared.justified
              && GoesOnWith(cfg, job, pc.reply, n.tasks[tid].pc)
  {
    var job := m.tasks[tid].job;
    Lru.PutFacts(m.shared.justified, job.fcu.safe, ());
    Lru.PutFacts(m.shared.finalized, job.fcu.finalized, ());
  }

  // ----- the payload builder ---------------------------------------------------------------

  /**
   * A client is given the identifier remembered for its head and attributes, if there is one. So is a
   * controller, and otherwise one that is remembered from then on, or a refusal, or the panic.
   */
  lemma {:induction false} AttributesAreUsed(cfg: Config, m: Machine, tid: nat)
    requires CachesOk(m.shared) && Enabled(m, Proceed(tid)) && m.tasks[tid].pc.Attributes?
    ensures var job, status := m.tasks[tid].job, m.tasks[tid].pc.status;
            var key := (job.fcu.head, job.attributes.value);
            var before := Lru.Peek(m.shared.builder.attributes, key);
            var n := Apply(cfg, m, Proceed(tid));
            var after := Lru.Peek(n.shared.builder.attributes, key);
            && n.tasks[tid].pc.Finished? && n.tasks[tid].pc.outcome.FcuDone? && n.tasks[tid].pc.outcome.status == status
            && (var answer := n.tasks[tid].pc.outcome.payloadId;
                if job.ClientFcu? then answer == (if before.Some? then Given(before.value) else NotKnown)
                else
                  && (answer.Given? || answer.Refused? || answer.BuilderPanicked?)
                  && (answer.Given? ==> after == Some(answer.id))
                  && (before.Some? && TimestampToSlot(cfg, key.1.timestamp).Some? ==> answer == Given(before.value)))
  {
    var job := m.tasks[tid].job;
    var key := (job.fcu.head, job.attributes.value);
    Lru.TouchFacts(m.shared.builder.attributes, key);
    var r := Register(cfg, m.shared.builder, key);
    if r.build.Some? {
      Lru.PutFacts(m.shared.builder.attributes, key, r.build.value.id);
    }
  }

  /** A fetch is answered with the payload stored under its identifier, if there is one. */
  lemma {:induction false} FetchAnswers(cfg: Config, m: Machine, tid: nat)
    requires Enabled(m, Proceed(tid)) && m.tasks[tid].pc.FetchFromBuilder?
    ensures var stored := Lru.Peek(m.shared.builder.payloads, m.tasks[tid].job.id);
            Apply(cfg, m, Proceed(tid)).tasks[tid].pc
                == Finished(if stored.Some? then Fetched(stored.value) else NotFound)
  {
  }

  // ----- beginning and waiting -----------------------------------------------------------------

  /** Where each request begins. A client's payload is refused at once exactly if its block hash is wrong. */
  lemma {:induction false} BeginsAt(cfg: Config, job: Job)
    ensures Start(cfg, job) == Task(
      job,
      match job
      case ControllerFcu(_, _) => Probe(true, Clock(0, 0))
      case ClientFcu(_, _) => Poll(Clock(0, 0))
      case ControllerNewPayload(_) => ProbePayload(true, Clock(0, 0))
      case ClientNewPayload(request) => if cfg.blockHashVerifies(request) then CheckRecent
          else Finished(BlockHashMismatch)
      case FetchPayload(_) => FetchFromBuilder,
      false)
  {
  }
}
