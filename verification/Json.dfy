/** Requests and replies as the JSON-RPC layer sees them. */
module Json {
  import opened Types
  import opened PayloadIds

  datatype AttributesFields = AttributesFields(
    timestamp: U64, prevRandao: Hash, feeRecipient: Address, withdrawals: seq<Withdrawal>,
    parentBeaconBlockRoot: Option<Hash>)

  /**
   * A JSON value, given by what each deserialiser makes of it; `None` is a deserialisation error.
   * `requests` fails in two ways: not a list of byte strings, or not valid execution requests.
   */
  datatype Value = Value(
    isNull: bool,
    items: Option<seq<Value>>,
    forkchoice: Option<Forkchoice>,
    attributes: Option<AttributesFields>,
    payloadId: Option<PayloadId>,
    hashes: Option<seq<Hash>>,
    hash: Option<Hash>,
    requests: Option<Option<nat>>,
    timestampField: Option<Option<U64>>,
    payloadAs: nat -> Option<ExecutionPayload>)

  datatype Method =
    | ForkchoiceUpdated(version: nat)
    | NewPayload(version: nat)
    | GetPayload(version: nat)
    | EthSyncing
    | EthChainId
    | ExchangeCapabilities
    | Proxied
    | Unknown

  /** The methods that both endpoints route to a handler. */
  predicate Routed(name: Method) {
    match name
    case ForkchoiceUpdated(v) => 1 <= v <= 3
    case NewPayload(v) => 1 <= v <= 4
    case GetPayload(v) => 1 <= v <= 4
    case Unknown => false
    case _ => true
  }

  type Id = nat

  datatype Request = Request(name: Method, params: Value, id: Id)

  datatype ErrorCode =
    | ParseError | InvalidRequest | MethodNotFound | InvalidPayloadAttributes | UnknownPayload

  datatype Result =
    | FcuResult(status: PayloadStatus, payloadId: Option<PayloadId>)
    | StatusResult(status: PayloadStatus)
    | PayloadResult(payload: ExecutionPayload)
    | Opaque

  datatype Reply = Response(id: Id, result: Result) | Error(id: Id, code: ErrorCode)

  /** A reply belongs to a request: it carries its id, and an unrouted method is refused as such. */
  predicate Answers(reply: Reply, request: Request) {
    && reply.id == request.id
    && (!Routed(request.name) ==> reply == Error(request.id, MethodNotFound))
    && (reply == Error(request.id, MethodNotFound) ==> !Routed(request.name))
    && (reply.Response? ==>
          match request.name
          case ForkchoiceUpdated(_) => reply.result.FcuResult?
          case NewPayload(_) => reply.result.StatusResult?
          case GetPayload(_) => reply.result.PayloadResult?
          case _ => reply.result.Opaque?)
  }

  /** Exactly `n` parameters, as a tuple or a list. */
  function Parameters(params: Value, n: nat): Option<seq<Value>> {
    if params.items.Some? && |params.items.value| == n then params.items else None
  }

  /** An absent or null optional value. */
  datatype Optional<T> = Absent | Present(value: T) | Malformed

  function AttributesV2From(value: Value): Optional<PayloadAttributes> {
    if value.isNull then Absent
    else match value.attributes
      case None => Malformed
      case Some(a) => Present(AttributesV2(a.timestamp, a.prevRandao, a.feeRecipient, a.withdrawals))
  }

  function AttributesV3From(value: Value): Optional<PayloadAttributes> {
    if value.isNull then Absent
    else match value.attributes
      case None => Malformed
      case Some(a) =>
        match a.parentBeaconBlockRoot
        case None => Malformed
        case Some(root) => Present(AttributesV3(a.timestamp, a.prevRandao, a.feeRecipient, a.withdrawals, root))
  }

  datatype FcuParams = FcuParams(fcu: Forkchoice, attributes: Optional<PayloadAttributes>)

  /** The controller's attributes are read by method: version 2 as V2, every other version as V3. */
  function ControllerFcuParams(request: Request): Option<FcuParams> {
    match Parameters(request.params, 2)
    case None => None
    case Some(values) =>
      if values[0].forkchoice.None? then None
      else
        var attributes := if request.name == ForkchoiceUpdated(2) then AttributesV2From(values[1])
            else AttributesV3From(values[1]);
        if attributes.Malformed? then None else Some(FcuParams(values[0].forkchoice.value, attributes))
  }

  /** A client's attributes are always read as V2, whatever the method. */
  function ClientFcuParams(request: Request): Option<FcuParams> {
    match Parameters(request.params, 2)
    case None => None
    case Some(values) =>
      if values[0].forkchoice.None? then None
      else
        var attributes := AttributesV2From(values[1]);
        if attributes.Malformed? then None else Some(FcuParams(values[0].forkchoice.value, attributes))
  }

  /** The methods that both endpoints serve are these and no others. */
  lemma {:induction false} RoutedMethods(name: Method)
    ensures Routed(name) <==>
            name in {ForkchoiceUpdated(1), ForkchoiceUpdated(2), ForkchoiceUpdated(3),
                     NewPayload(1), NewPayload(2), NewPayload(3), NewPayload(4),
                     GetPayload(1), GetPayload(2), GetPayload(3), GetPayload(4),
                     EthSyncing, EthChainId, ExchangeCapabilities, Proxied}
  {
  }

  /** What a controller's forkchoice update must consist of, and how its parameters are read. */
  lemma {:induction false} ControllerFcuReads(request: Request)
    ensures ControllerFcuParams(request).Some? <==>
            && request.params.items.Some? && |request.params.items.value| == 2
            && var values := request.params.items.value;
            && values[0].forkchoice.Some?
            && (|| values[1].isNull
                || (&& values[1].attributes.Some?
                    && (request.name == ForkchoiceUpdated(2)
                        || values[1].attributes.value.parentBeaconBlockRoot.Some?)))
    ensures ControllerFcuParams(request).Some? ==>
            var p, values := ControllerFcuParams(request).value, request.params.items.value;
            && p.fcu == values[0].forkchoice.value
            && (if values[1].isNull then p.attributes.Absent? else
                  var a := values[1].attributes.value;
                  p.attributes == Present(
                    if request.name == ForkchoiceUpdated(2) then
                      AttributesV2(a.timestamp, a.prevRandao, a.feeRecipient, a.withdrawals)
                    else
                      AttributesV3(a.timestamp, a.prevRandao, a.feeRecipient, a.withdrawals,
                          a.parentBeaconBlockRoot.value)))
  {
  }

  /** The same for a client, whose attributes are read as V2 whatever the method. */
  lemma {:induction false} ClientFcuReads(request: Request)
    ensures ClientFcuParams(request).Some? <==>
            && request.params.items.Some? && |request.params.items.value| == 2
            && var values := request.params.items.value;
            && values[0].forkchoice.Some? && (values[1].isNull || values[1].attributes.Some?)
    ensures ClientFcuParams(request).Some? ==>
            var p, values := ClientFcuParams(request).value, request.params.items.value;
            && p.fcu == values[0].forkchoice.value
            && (if values[1].isNull then p.attributes.Absent? else
                  var a := values[1].attributes.value;
                  p.attributes == Present(AttributesV2(a.timestamp, a.prevRandao, a.feeRecipient, a.withdrawals)))
  {
  }

  /**
   * A client can name the key of a controller's build only if the controller used version 2:
   * keys registered by the other versions are of another kind.
   */
  lemma {:induction false} KeysSharedOnlyThroughV2(controller: Request, client: Request)
    requires ControllerFcuParams(controller).Some? && ControllerFcuParams(controller).value.attributes.Present?
    requires ClientFcuParams(client).Some? && ClientFcuParams(client).value.attributes.Present?
    ensures controller.name != ForkchoiceUpdated(2) ==>
              ControllerFcuParams(controller).value.attributes != ClientFcuParams(client).value.attributes
    ensures controller.name == ForkchoiceUpdated(2) && client.params == controller.params ==>
              ControllerFcuParams(controller) == ClientFcuParams(client)
  {
  }
}
