/** The two JSON-RPC endpoints: routing by method, and batches of client requests. */
module Rpc {
  import opened Types
  import opened Json
  import opened Multiplexing
  import opened Protocol
  import opened Service
  import Outcomes

  /** What lies outside the program while one request is served. */
  datatype World = World(engine: Option<PayloadStatus>, proxied: bool, timer: Timer)

  datatype Requests = Single(request: Request) | Multiple(requests: seq<Request>)

  datatype Responses = One(reply: Reply) | Many(replies: seq<Reply>)

  /** Methods answered by the engine, or from its description, as a result this model does not look into. */
  function Forwarded(request: Request, succeeds: bool): Reply {
    if succeeds then Response(request.id, Opaque) else Error(request.id, ParseError)
  }

  /**
   * A client's request is served by a task that does what the request asks for. The engine is never heard
   * on its behalf.
   */
  method ProcessClientRequest(multiplexer: Multiplexer, request: Request, world: World)
    returns (r: Attempt<Reply>, ghost tid: nat)
    requires multiplexer.Valid()
    modifies multiplexer, multiplexer.builder
    ensures multiplexer.Valid() && old(multiplexer.steps) <= multiplexer.steps
    ensures !r.Crashed?
    ensures r.Completed? ==> Answers(r.value, request)
    ensures r.Completed? ==> Served(multiplexer.cfg, multiplexer.now, false, request, tid, r.value)
    ensures tid in multiplexer.now.tasks && !Outcomes.IsController(multiplexer.now.tasks[tid].job) ==>
              Outcomes.NeverAnswered(multiplexer.steps, tid)
  {
    tid := 0;
    if !Routed(request.name) {
      r := Completed(Error(request.id, MethodNotFound));
    } else {
      match request.name {
        case ForkchoiceUpdated(_) => r, tid := multiplexer.HandleFcu(request, world.timer);
        case NewPayload(_) => r, tid := multiplexer.HandleNewPayload(request, world.timer);
        case GetPayload(_) => r, tid := multiplexer.HandleGetPayload(request);
        case _ => r := Completed(Forwarded(request, world.proxied));
      }
    }
    Outcomes.AskedAtMostOnce(multiplexer.cfg, multiplexer.steps, multiplexer.now, tid);
  }

  /**
   * A controller's request is served by a controller's task, and told the engine's answer unless a final
   * one is cached. Its panic is the division by zero while building on a parent with no gas target.
   */
  method ProcessControllerRequest(multiplexer: Multiplexer, request: Request, world: World)
    returns (r: Attempt<Reply>, ghost tid: nat)
    requires multiplexer.Valid()
    modifies multiplexer, multiplexer.builder
    ensures multiplexer.Valid() && old(multiplexer.steps) <= multiplexer.steps
    ensures r.Crashed? ==> request.name.ForkchoiceUpdated?
    ensures r.Completed? ==> Answers(r.value, request)
    ensures r.Completed? ==> Served(multiplexer.cfg, multiplexer.now, true, request, tid, r.value)
    ensures r.Completed? && Routed(request.name) && request.name.ForkchoiceUpdated? ==>
              multiplexer.FcuReplyFits(request, world.engine, r.value)
    ensures r.Completed? && Routed(request.name) && request.name.NewPayload? && r.value.Response? ==>
              world.engine == Some(r.value.result.status) || Final(r.value.result.status)
  {
    tid := 0;
    if !Routed(request.name) {
      return Completed(Error(request.id, MethodNotFound)), tid;
    }
    match request.name {
      case ForkchoiceUpdated(_) => r, tid := multiplexer.HandleControllerFcu(request, world.engine);
      case NewPayload(_) => r, tid := multiplexer.HandleControllerNewPayload(request, world.engine);
      case GetPayload(_) => r, tid := multiplexer.HandleGetPayload(request);
      case _ => r := Completed(Forwarded(request, world.proxied));
    }
  }

  /** The requests so far have been answered, each by its own reply, and are served. */
  ghost predicate AllServed(multiplexer: Multiplexer, requests: seq<Request>, replies: seq<Reply>, tids: seq<nat>)
    reads multiplexer
  {
    && |replies| == |tids| <= |requests|
    && (forall i :: 0 <= i < |replies| ==>
          && Answers(replies[i], requests[i])
          && Served(multiplexer.cfg, multiplexer.now, false, requests[i], tids[i], replies[i]))
  }

  /** What was served stays served while the next request is. */
  lemma {:induction false} StillServed(cfg: Config, first: seq<Step>, m: Machine, all: seq<Step>, n: Machine,
      requests: seq<Request>, replies: seq<Reply>, tids: seq<nat>)
    requires Run(cfg, Initial(cfg), first) == Some(m) && Run(cfg, Initial(cfg), all) == Some(n) && first <= all
    requires |replies| == |tids| <= |requests|
    requires forall i :: 0 <= i < |replies| ==> Served(cfg, m, false, requests[i], tids[i], replies[i])
    ensures forall i :: 0 <= i < |replies| ==> Served(cfg, n, false, requests[i], tids[i], replies[i])
  {
    forall i | 0 <= i < |replies| ensures Served(cfg, n, false, requests[i], tids[i], replies[i]) {
      ServedStays(cfg, first, m, all, n, false, requests[i], tids[i], replies[i]);
    }
  }

  /** A batch is answered in order, one reply a request; an unauthorised or unreadable body gets one error. */
  method HandleClientJsonRpc(multiplexer: Multiplexer, authorised: bool, body: Option<Requests>, world: nat -> World)
    returns (responses: Attempt<Responses>, ghost tids: seq<nat>)
    requires multiplexer.Valid()
    modifies multiplexer, multiplexer.builder
    ensures multiplexer.Valid() && old(multiplexer.steps) <= multiplexer.steps
    ensures !responses.Crashed?
    ensures !authorised || body.None? ==>
              responses == Completed(One(Error(0, ParseError))) && multiplexer.steps == old(multiplexer.steps)
    ensures authorised && body.Some? && body.value.Single? && responses.Completed? ==>
              responses.value.One? && AllServed(multiplexer, [body.value.request], [responses.value.reply], tids)
    ensures authorised && body.Some? && body.value.Multiple? && responses.Completed? ==>
              && responses.value.Many?
              && |responses.value.replies| == |body.value.requests|
              && AllServed(multiplexer, body.value.requests, responses.value.replies, tids)
  {
    tids := [];
    if !authorised || body.None? {
      return Completed(One(Error(NO_ID, ParseError))), tids;
    }
    match body.value
    case Single(request) =>
      var r, tid := ProcessClientRequest(multiplexer, request, world(0));
      if r.Suspended? {
        return Suspended, tids;
      }
      return Completed(One(r.value)), [tid];
    case Multiple(requests) =>
      var results: seq<Reply> := [];
      for i := 0 to |requests|
        invariant multiplexer.Valid() && old(multiplexer.steps) <= multiplexer.steps
        invariant |results| == i && AllServed(multiplexer, requests, results, tids)
      {
        var result;
        result, tids := ServeNext(multiplexer, requests, i, results, tids, world(i));
        if result.Suspended? {
          return Suspended, tids;
        }
        results := results + [result.value];
      }
      return Completed(Many(results)), tids;
  }

  /** One turn of the batch loop. */
  method ServeNext(multiplexer: Multiplexer, requests: seq<Request>, i: nat, ghost results: seq<Reply>,
      ghost tids: seq<nat>, world: World)
    returns (r: Attempt<Reply>, ghost more: seq<nat>)
    requires multiplexer.Valid() && AllServed(multiplexer, requests, results, tids) && |results| == i < |requests|
    modifies multiplexer, multiplexer.builder
    ensures multiplexer.Valid() && old(multiplexer.steps) <= multiplexer.steps && !r.Crashed?
    ensures r.Completed? ==> AllServed(multiplexer, requests, results + [r.value], more)
  {
    ghost var first, m := multiplexer.steps, multiplexer.now;
    ghost var tid;
    r, tid := ProcessClientRequest(multiplexer, requests[i], world);
    StillServed(multiplexer.cfg, first, m, multiplexer.steps, multiplexer.now, requests, results, tids);
    more := tids + [tid];
  }

  method HandleControllerJsonRpc(multiplexer: Multiplexer, authorised: bool, body: Option<Request>, world: World)
    returns (r: Attempt<Reply>, ghost tid: nat)
    requires multiplexer.Valid()
    modifies multiplexer, multiplexer.builder
    ensures multiplexer.Valid() && old(multiplexer.steps) <= multiplexer.steps
    ensures !authorised || body.None? ==>
              r == Completed(Error(0, ParseError)) && multiplexer.steps == old(multiplexer.steps)
    ensures authorised && body.Some? && r.Completed? ==>
              && Answers(r.value, body.value)
              && Served(multiplexer.cfg, multiplexer.now, true, body.value, tid, r.value)
  {
    tid := 0;
    if !authorised || body.None? {
      return Completed(Error(NO_ID, ParseError)), tid;
    }
    r, tid := ProcessControllerRequest(multiplexer, body.value, world);
  }

  const NO_ID: Id := 0
}
