/** What each request asks for, read from its own parameters, and when a reply serves it. */
module Service {
  import opened Types
  import opened Json
  import opened PayloadIds
  import opened PayloadBuilding
  import opened NewPayloads
  import opened Protocol
  import opened Outcomes
  import Lru

  /** VALID, INVALID or INVALID_BLOCK_HASH. */
  predicate Final(status: PayloadStatus) {
    status.verdict in {Valid, Invalid, InvalidBlockHash}
  }

  // ----- replies ---------------------------------------------------------------------------

  /** The reply sent for the outcome of a task; `None` if the task panicked or was dropped. */
  function Render(id: Id, outcome: Outcome): Option<Reply> {
    match outcome
    case FcuDone(status, NotAsked) => Some(Response(id, FcuResult(status, None)))
    case FcuDone(status, Given(payloadId)) => Some(Response(id, FcuResult(status, Some(payloadId))))
    case FcuDone(status, NotKnown) => Some(Response(id, FcuResult(status, None)))
    case FcuDone(_, Refused(_)) => Some(Error(id, InvalidPayloadAttributes))
    case FcuDone(_, BuilderPanicked) => None
    case StatusDone(status) => Some(Response(id, StatusResult(status)))
    case EngineFailed => Some(Error(id, InvalidRequest))
    case BlockHashMismatch => Some(Error(id, InvalidRequest))
    case VersionedHashMismatch => Some(Error(id, InvalidRequest))
    case Fetched(payload) => Some(Response(id, PayloadResult(payload)))
    case NotFound => Some(Error(id, UnknownPayload))
    case Dropped => None
  }

  /** What callers are sent: the status with the identifier, if one was given, or an error of its own kind. */
  lemma {:induction false} RepliesAre(id: Id, status: PayloadStatus, payloadId: PayloadId, payload: ExecutionPayload,
      reason: Rejection)
    ensures Render(id, FcuDone(status, NotAsked)) == Some(Response(id, FcuResult(status, None)))
    ensures Render(id, FcuDone(status, NotKnown)) == Some(Response(id, FcuResult(status, None)))
    ensures Render(id, FcuDone(status, Given(payloadId))) == Some(Response(id, FcuResult(status, Some(payloadId))))
    ensures Render(id, FcuDone(status, Refused(reason))) == Some(Error(id, InvalidPayloadAttributes))
    ensures Render(id, FcuDone(status, BuilderPanicked)) == None
    ensures Render(id, StatusDone(status)) == Some(Response(id, StatusResult(status)))
    ensures Render(id, Fetched(payload)) == Some(Response(id, PayloadResult(payload)))
    ensures Render(id, NotFound) == Some(Error(id, UnknownPayload))
    ensures Render(id, EngineFailed) == Some(Error(id, InvalidRequest))
    ensures Render(id, BlockHashMismatch) == Some(Error(id, InvalidRequest))
    ensures Render(id, VersionedHashMismatch) == Some(Error(id, InvalidRequest))
  {
  }

  // ----- what a request asks for -----------------------------------------------------------

  function PayloadIdParam(request: Request): Option<PayloadId> {
    match Parameters(request.params, 1)
    case None => None
    case Some(values) => values[0].payloadId
  }

  /** A fetch has one parameter, an identifier. */
  lemma {:induction false} FetchReads(request: Request)
    ensures PayloadIdParam(request)
            == if request.params.items.Some? && |request.params.items.value| == 1
                then request.params.items.value[0].payloadId
               else None
  {
  }

  /** The attributes a forkchoice update carries, if its second parameter is not null. */
  function AttributesIn(controller: bool, request: Request): Option<PayloadAttributes>
    requires if controller then ControllerFcuParams(request).Some? else ClientFcuParams(request).Some?
  {
    var second := request.params.items.value[1];
    if second.isNull then None
    else
      var a := second.attributes.value;
      if controller && request.name != ForkchoiceUpdated(2) then
        Some(AttributesV3(a.timestamp, a.prevRandao, a.feeRecipient, a.withdrawals, a.parentBeaconBlockRoot.value))
      else Some(AttributesV2(a.timestamp, a.prevRandao, a.feeRecipient, a.withdrawals))
  }

  /** The forkchoice update of a controller, or of a client, whose parameters can be read. */
  function FcuJob(controller: bool, request: Request): (job: Job)
    requires if controller then ControllerFcuParams(request).Some? else ClientFcuParams(request).Some?
    ensures if controller then job.ControllerFcu? else job.ClientFcu?
  {
    var fcu := request.params.items.value[0].forkchoice.value;
    if controller then ControllerFcu(fcu, AttributesIn(true, request)) else ClientFcu(fcu, AttributesIn(false, request))
  }

  /** What a routed request asks for; `None` if its parameters cannot be read. */
  function JobOf(cfg: Config, controller: bool, request: Request): Option<Job>
    requires Routed(request.name)
    requires request.name.ForkchoiceUpdated? || request.name.NewPayload? || request.name.GetPayload?
  {
    match request.name
    case ForkchoiceUpdated(_) =>
      if (if controller then ControllerFcuParams(request).None? else ClientFcuParams(request).None?) then None
      else Some(FcuJob(controller, request))
    case NewPayload(_) =>
      var decoded := DecodeNewPayload(cfg, request);
      if decoded.None? then None
      else
        RoutedNeverPanics(cfg, request);
        Some(if controller then ControllerNewPayload(RequestOf(decoded.value).value)
             else ClientNewPayload(RequestOf(decoded.value).value))
    case GetPayload(_) => if PayloadIdParam(request).None? then None
        else Some(FetchPayload(PayloadIdParam(request).value))
  }

  // ----- served --------------------------------------------------------------------------------

  /** The task did this job to its end, and the reply is its outcome. */
  ghost predicate Did(m: Machine, tid: nat, job: Job, id: Id, reply: Reply) {
    && tid in m.tasks && m.tasks[tid].job == job && m.tasks[tid].pc.Finished?
    && Render(id, m.tasks[tid].pc.outcome) == Some(reply)
  }

  /**
   * The reply serves the request: that of an unrouted method is "method not found", of unreadable
   * parameters a parse error, and otherwise the outcome of a task that did what the request asks for.
   */
  ghost predicate Served(cfg: Config, m: Machine, controller: bool, request: Request, tid: nat, reply: Reply) {
    if !Routed(request.name) then reply == Error(request.id, MethodNotFound)
    else if request.name.ForkchoiceUpdated? || request.name.NewPayload? || request.name.GetPayload? then
      var job := JobOf(cfg, controller, request);
      if job.None? then reply == Error(request.id, ParseError) else Did(m, tid, job.value, request.id, reply)
    else reply == Response(request.id, Opaque) || reply == Error(request.id, ParseError)
  }

  /** A finished task stays as it is, whatever else happens. */
  lemma {:induction false} FinishedStays(cfg: Config, m: Machine, steps: seq<Step>, n: Machine, tid: nat)
    requires Run(cfg, m, steps) == Some(n) && tid in m.tasks && m.tasks[tid].pc.Finished?
    ensures tid in n.tasks && n.tasks[tid] == m.tasks[tid]
    decreases |steps|
  {
    if steps != [] {
      var init, last := steps[..|steps| - 1], steps[|steps| - 1];
      var before := Run(cfg, m, init).value;
      FinishedStays(cfg, m, init, before, tid);
      FinishedStep(cfg, before, last, tid);
    }
  }

  lemma {:induction false} FinishedStep(cfg: Config, m: Machine, step: Step, tid: nat)
    requires Enabled(m, step) && tid in m.tasks && m.tasks[tid].pc.Finished?
    ensures tid in Apply(cfg, m, step).tasks && Apply(cfg, m, step).tasks[tid] == m.tasks[tid]
  {
    StepShared(cfg, m, step);
  }

  lemma {:induction false} ServedStays(cfg: Config, first: seq<Step>, m: Machine, all: seq<Step>, n: Machine,
      controller: bool, request: Request, tid: nat, reply: Reply)
    requires Run(cfg, Initial(cfg), first) == Some(m) && Run(cfg, Initial(cfg), all) == Some(n) && first <= all
    requires Served(cfg, m, controller, request, tid, reply)
    ensures Served(cfg, n, controller, request, tid, reply)
  {
    var rest := all[|first|..];
    assert all == first + rest;
    RunConcat(cfg, Initial(cfg), first, rest);
    if tid in m.tasks && m.tasks[tid].pc.Finished? {
      FinishedStays(cfg, m, rest, n, tid);
    }
  }

  /** The builder, asked at a step of this task, remembered this identifier for the key, or none. */
  ghost predicate RememberedId(cfg: Config, steps: seq<Step>, tid: nat, key: Key, id: Option<PayloadId>) {
    exists i: nat, n: Machine ::
      Before(cfg, steps, i, n) && steps[i] == Proceed(tid) && Lru.Peek(n.shared.builder.attributes, key) == id
  }
}
