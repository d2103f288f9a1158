/** The part of the UCX native API (ucp/api/ucp.h) that the endpoint and the
    stream request depend on, as values: nullable handles, status codes,
    status-or-request results, the parameter records handed to the transport,
    and a log of the calls made into it. The library itself is abstract: the
    results of its calls are supplied by the caller of each modelled
    operation, and its side effects are recorded in a `Transport` object. */
module Ucx {

  datatype Option<T> = None | Some(value: T)

  datatype Result<T, E> = Success(value: T) | Failure(error: E)

  /** A native pointer or handle (ucp_ep_h, ucp_worker_h, void*, ...) that may be null. */
  datatype Ptr = Null | Ref(addr: nat)

  /** UCS error codes are the negative values of ucs_status_t. */
  type ErrorCode = c: int | c < 0 witness -1

  /** ucs_status_t: UCS_OK, UCS_INPROGRESS or one of the error codes. */
  datatype Status = Ok | InProgress | Failed(code: ErrorCode)

  /** A status a finished operation can report. */
  type FinalStatus = s: Status | !s.InProgress? witness Ok

  /** A request the transport allocated for an operation that did not finish
      at once. It stays in progress until the worker has been progressed
      `completesAt` times in total, and then reports `final`. */
  datatype NativeRequest = NativeRequest(id: nat, completesAt: nat, final: FinalStatus)

  /** ucs_status_ptr_t: either an immediate status (UCS_PTR_IS_PTR false) or a
      pointer to a pending request (UCS_PTR_IS_PTR true). */
  datatype StatusPtr = Immediate(status: FinalStatus) | Pending(request: NativeRequest)

  /** ucp_request_check_status, as a function of the worker's progress count. */
  function CheckStatus(r: NativeRequest, progressCount: nat): (s: Status)
    ensures s == InProgress <==> progressCount < r.completesAt
    ensures s != InProgress ==> s == r.final
  {
    if progressCount < r.completesAt then InProgress else r.final
  }

  /** UCP_EP_CLOSE_MODE_FLUSH and UCP_EP_CLOSE_MODE_FORCE. */
  datatype CloseMode = Flush | Force

  /** The bits of ucp_ep_params_t.field_mask used here (UCP_EP_PARAM_FIELD_*). */
  datatype EpField = FlagsField | SockAddrField | ConnRequestField | RemoteAddressField
                   | ErrHandlingModeField | ErrHandlerField

  /** UCP_EP_PARAMS_FLAGS_CLIENT_SERVER and UCP_EP_PARAMS_FLAGS_NO_LOOPBACK. */
  datatype EpFlag = ClientServer | NoLoopback

  /** UCP_ERR_HANDLING_MODE_NONE and UCP_ERR_HANDLING_MODE_PEER. */
  datatype ErrHandlingMode = ModeNone | ModePeer

  /** A socket address as encoded by sockaddr_utils_set. */
  datatype SockAddr = SockAddr(host: string, port: nat)

  /** A ucs_status_t variable in memory; an error handler's argument points
      to one. */
  class StatusCell {
    var value: Status

    constructor ()
      ensures value == Ok
    {
      value := Ok;
    }
  }

  /** ucp_ep_params_t. A member the code never assigns is `None` (for `flags`,
      the empty set); `errHandler` is the argument of the installed error
      callback (err_handler.arg), once the callback is installed. */
  datatype EpParams = EpParams(
    fieldMask: set<EpField>,
    flags: set<EpFlag>,
    sockaddr: Option<SockAddr>,
    connRequest: Option<Ptr>,
    address: Option<Ptr>,
    errMode: Option<ErrHandlingMode>,
    errHandler: Option<StatusCell>)

  /** The empty parameter record that `new ucp_ep_params_t` stands for. */
  const NoParams := EpParams({}, {}, None, None, None, None, None)

  /** The bits of ucp_request_param_t.op_attr_mask used here (UCP_OP_ATTR_FIELD_*). */
  datatype OpAttr = CallbackAttr | DatatypeAttr | UserDataAttr | FlagsAttr

  /** UCP_STREAM_RECV_FLAG_WAITALL. */
  datatype StreamFlag = WaitAll

  /** ucp_dt_make_contig(n): a contiguous datatype of n-byte elements. */
  datatype Datatype = Contig(elementSize: nat)

  /** The completion callbacks a stream operation can carry. */
  datatype StreamCallback = StreamSendCallback | StreamRecvCallback

  /** ucp_request_param_t as the stream request fills it. */
  datatype RequestParam = RequestParam(
    opAttrMask: set<OpAttr>,
    dtype: Datatype,
    userData: nat,
    flags: set<StreamFlag>,
    callback: StreamCallback)

  /** A call of ucp_stream_send_nbx or ucp_stream_recv_nbx. */
  datatype StreamCall =
    | StreamSendNbx(ep: Ptr, buffer: Ptr, length: nat, param: RequestParam)
    | StreamRecvNbx(ep: Ptr, buffer: Ptr, length: nat, param: RequestParam)

  /** A call of ucp_ep_create: the worker handle and the parameters. */
  datatype CreateCall = CreateCall(worker: Ptr, params: EpParams)

  /** A call of ucp_ep_close_nb: the endpoint handle and the close mode. */
  datatype CloseCall = CloseCall(ep: nat, mode: CloseMode)

  /** What the library code writes to its output streams. */
  datatype LogEntry = ErrorCallbackCalled(status: Status) | CloseError(status: Status)

  /** What ucp_ep_create answers: a new endpoint handle or a failure status. */
  datatype EpCreateResult = EpCreated(ep: nat) | EpCreateFailed(code: ErrorCode)

  /** The observable side effects of calls into the native library and of
      logging, in the order they happen, together with the error handler
      argument each native endpoint was created with. */
  class Transport {
    var created: seq<CreateCall>
    var handlers: map<nat, StatusCell>
    var closes: seq<CloseCall>
    var freed: seq<nat>
    var streamCalls: seq<StreamCall>
    var sockaddrFrees: seq<Option<SockAddr>>
    var log: seq<LogEntry>

    constructor ()
      ensures created == [] && handlers == map[] && closes == [] && freed == []
      ensures streamCalls == [] && sockaddrFrees == [] && log == []
    {
      created, handlers, closes, freed := [], map[], [], [];
      streamCalls, sockaddrFrees, log := [], [], [];
    }

    /** ucp_ep_create answering `result`: a new native endpoint reports its
        errors to the error handler argument of its parameters. */
    method EpCreate(call: CreateCall, result: EpCreateResult)
      modifies this`created, this`handlers
      ensures created == old(created) + [call]
      ensures handlers == if result.EpCreated? && call.params.errHandler.Some?
                          then old(handlers)[result.ep := call.params.errHandler.value]
                          else old(handlers)
    {
      created := created + [call];
      if result.EpCreated? && call.params.errHandler.Some? {
        handlers := handlers[result.ep := call.params.errHandler.value];
      }
    }

    /** The error handler argument native endpoint `ep` was created with. */
    function Handler(ep: nat): StatusCell
      requires ep in handlers
      reads this
    {
      handlers[ep]
    }

    /** ucp_ep_close_nb. */
    method EpCloseNb(call: CloseCall)
      modifies this`closes
      ensures closes == old(closes) + [call]
    {
      closes := closes + [call];
    }

    /** ucp_request_free. */
    method RequestFree(r: NativeRequest)
      modifies this`freed
      ensures freed == old(freed) + [r.id]
    {
      freed := freed + [r.id];
    }

    /** ucp_stream_send_nbx / ucp_stream_recv_nbx. */
    method StreamNbx(call: StreamCall)
      modifies this`streamCalls
      ensures streamCalls == old(streamCalls) + [call]
    {
      streamCalls := streamCalls + [call];
    }

    /** sockaddr_utils_free on a socket address member: `a` is what the member
        holds, `None` when it was never encoded. */
    method SockaddrFree(a: Option<SockAddr>)
      modifies this`sockaddrFrees
      ensures sockaddrFrees == old(sockaddrFrees) + [a]
    {
      sockaddrFrees := sockaddrFrees + [a];
    }

    /** A line written to std::cout or std::cerr. */
    method Log(e: LogEntry)
      modifies this`log
      ensures log == old(log) + [e]
    {
      log := log + [e];
    }
  }
}
