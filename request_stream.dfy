/** UCXXRequestStream (cpp/include/ucxx/request_stream.h): a stream send or
    receive whose native call is not issued when the request is created.
    Construction captures the operation and queues a deferred closure on the
    worker; when the worker drains its queue the closure issues the native
    stream call and hands its result to `process`. */
module StreamRequests {
  import opened Ucx
  import opened Components
  import opened Endpoints

  /** NotificationRequest: the operation captured at construction. */
  datatype NotificationData = NotificationData(worker: Ptr, ep: Ptr, send: bool, buffer: Ptr, length: nat)

  /** The request's life: waiting for its deferred closure to run, waiting
      for the transport's completion callback, or completed. */
  datatype RequestState = PendingRegistration | AwaitingCallback | Completed(status: FinalStatus)

  /** A call of UCXXRequest::process: the worker handle, the native result
      and the operation name. */
  datatype ProcessCall = ProcessCall(worker: Ptr, result: StatusPtr, operation: string)

  /** The operation name populateNotificationRequest uses. */
  function OperationName(send: bool): (name: string)
    ensures name == "stream_send" <==> send
    ensures !send <==> name == "stream_recv"
  {
    if send then "stream_send" else "stream_recv"
  }

  /** The name each completion callback passes to UCXXRequest::callback. */
  function CallbackOperation(cb: StreamCallback): (name: string)
    ensures name == "stream_send" <==> cb == StreamSendCallback
    ensures name == "stream_recv" <==> cb == StreamRecvCallback
  {
    match cb
    case StreamSendCallback => "stream_send"
    case StreamRecvCallback => "stream_recv"
  }

  /** The op_attr_mask bits every stream operation sets. */
  const StreamAttrs := {CallbackAttr, DatatypeAttr, UserDataAttr}

  /** stream_request: the native call issued for a stream operation, with the
      request handle `request` as its user data. */
  function StreamRequestCall(ep: Ptr, send: bool, buffer: Ptr, length: nat, request: nat): (c: StreamCall)
    ensures c.ep == ep && c.buffer == buffer && c.length == length
    ensures StreamAttrs <= c.param.opAttrMask
    ensures c.param.dtype == Contig(1) && c.param.userData == request
    ensures c.StreamSendNbx? <==> send
    ensures send ==> c.param.opAttrMask == StreamAttrs && c.param.callback == StreamSendCallback
    ensures !send ==> && c.param.opAttrMask == StreamAttrs + {FlagsAttr}
                      && c.param.flags == {WaitAll}
                      && c.param.callback == StreamRecvCallback
  {
    if send then
      StreamSendNbx(ep, buffer, length, RequestParam(StreamAttrs, Contig(1), request, {}, StreamSendCallback))
    else
      StreamRecvNbx(ep, buffer, length,
                    RequestParam(StreamAttrs + {FlagsAttr}, Contig(1), request, {WaitAll}, StreamRecvCallback))
  }

  /** A request parameter record the transport can read: flags are set
      exactly when their bit is in the mask. */
  predicate ParamConsistent(p: RequestParam)
  {
    FlagsAttr in p.opAttrMask <==> p.flags != {}
  }

  /** Every stream call carries a consistent parameter record, and the
      callback it installs reports under the same operation name that
      populateNotificationRequest gives `process`. */
  lemma StreamCallMatchesOperation(ep: Ptr, send: bool, buffer: Ptr, length: nat, request: nat)
    ensures var c := StreamRequestCall(ep, send, buffer, length, request);
      ParamConsistent(c.param) && CallbackOperation(c.param.callback) == OperationName(send)
  {
  }

  /** UCXXRequest::process at its interface: a pending native result leaves
      completion to the callback; an immediate one completes the request with
      that status. */
  function AfterProcess(result: StatusPtr): (s: RequestState)
    ensures s != PendingRegistration
    ensures s == AwaitingCallback <==> result.Pending?
    ensures result.Immediate? ==> s == Completed(result.status)
  {
    match result
    case Pending(_) => AwaitingCallback
    case Immediate(status) => Completed(status)
  }

  class StreamRequest {
    const id: nat
    const endpoint: Endpoint
    const data: NotificationData
    var state: RequestState
    var processed: seq<ProcessCall>
    var completedBy: Option<string>

    /** The constructor: captures the operation and registers the deferred
        closure with the worker, and nothing else; in particular it issues no
        native call (it does not touch the transport). `id` is the request
        handle. */
    constructor (worker: Worker, endpoint: Endpoint, send: bool, buffer: Ptr, length: nat, id: nat)
      modifies worker
      ensures this.id == id && this.endpoint == endpoint
      ensures data == NotificationData(worker.handle, endpoint.handle, send, buffer, length)
      ensures Unpopulated() && completedBy.None?
      ensures worker.notifications == old(worker.notifications) + [id]
      ensures worker.progressCount == old(worker.progressCount)
    {
      this.id := id;
      this.endpoint := endpoint;
      data := NotificationData(worker.handle, endpoint.handle, send, buffer, length);
      state := PendingRegistration;
      processed := [];
      completedBy := None;
      new;
      worker.RegisterNotificationRequest(id);
    }

    /** Waiting for the deferred closure, which has not run: `process` has
        not been called. */
    predicate Unpopulated()
      reads this
    {
      state == PendingRegistration && processed == []
    }

    /** The native call this request issues when populated. */
    function IssuedCall(): StreamCall
    {
      StreamRequestCall(data.ep, data.send, data.buffer, data.length, id)
    }

    /** The call of `process` that populating with native result `result` makes. */
    function ProcessedCall(result: StatusPtr): ProcessCall
    {
      ProcessCall(data.worker, result, OperationName(data.send))
    }

    /** populateNotificationRequest, run once by the worker for the closure
        the constructor registered: issues the captured operation (`result`
        is what the native stream call answers) and passes the result to
        `process` with the captured worker and the operation's name. */
    method Populate(t: Transport, result: StatusPtr)
      requires Unpopulated()
      modifies this`state, this`processed, t`streamCalls
      ensures t.streamCalls == old(t.streamCalls) + [IssuedCall()]
      ensures t.created == old(t.created) && t.closes == old(t.closes)
      ensures t.freed == old(t.freed) && t.log == old(t.log)
      ensures processed == [ProcessedCall(result)]
      ensures state == AfterProcess(result)
    {
      var operationName := OperationName(data.send);
      t.StreamNbx(StreamRequestCall(data.ep, data.send, data.buffer, data.length, id));
      processed := processed + [ProcessCall(data.worker, result, operationName)];
      state := AfterProcess(result);
    }

    /** stream_send_callback and stream_recv_callback: the transport calls
        the callback the issued call installed, which forwards the status to
        UCXXRequest::callback under its own operation name, the one populating
        used; that completes the request once, and a later call changes
        nothing. */
    method Callback(cb: StreamCallback, s: FinalStatus)
      requires state != PendingRegistration && cb == IssuedCall().param.callback
      modifies this`state, this`completedBy
      ensures state.Completed?
      ensures old(state).Completed? ==> state == old(state) && completedBy == old(completedBy)
      ensures !old(state).Completed? ==> state == Completed(s) && completedBy == Some(OperationName(data.send))
    {
      if !state.Completed? {
        state := Completed(s);
        completedBy := Some(CallbackOperation(cb));
      }
    }
  }

  predicate Distinct(q: seq<nat>)
  {
    forall i, j :: 0 <= i < j < |q| ==> q[i] != q[j]
  }

  /** Every queued id names the request with that id. */
  predicate Registered(q: seq<nat>, requests: map<nat, StreamRequest>)
  {
    forall i :: 0 <= i < |q| ==> q[i] in requests && requests[q[i]].id == q[i]
  }

  function Queued(q: seq<nat>, requests: map<nat, StreamRequest>): set<StreamRequest>
    requires Registered(q, requests)
  {
    set i | 0 <= i < |q| :: requests[q[i]]
  }

  /** The native calls draining the queue `q` issues: one per entry, in
      queue order. */
  function IssuedCalls(q: seq<nat>, requests: map<nat, StreamRequest>): (calls: seq<StreamCall>)
    requires Registered(q, requests)
    ensures |calls| == |q|
  {
    if q == [] then [] else [requests[q[0]].IssuedCall()] + IssuedCalls(q[1..], requests)
  }

  /** The drain issues the calls in queue order: the i-th call is the one
      of the i-th queued request. */
  lemma {:induction false} IssuedCallsInQueueOrder(q: seq<nat>, requests: map<nat, StreamRequest>, i: nat)
    requires Registered(q, requests) && i < |q|
    ensures IssuedCalls(q, requests)[i] == requests[q[i]].IssuedCall()
    ensures IssuedCalls(q, requests)[i].param.userData == q[i]
  {
    if i > 0 {
      IssuedCallsInQueueOrder(q[1..], requests, i - 1);
    }
  }

  /** How many of `calls` carry request handle `id` as their user data. */
  function CallsFor(calls: seq<StreamCall>, id: nat): nat
  {
    if calls == [] then 0
    else (if calls[0].param.userData == id then 1 else 0) + CallsFor(calls[1..], id)
  }

  /** Draining a queue without repeated entries issues exactly one native
      call for each queued request and none for any other. */
  lemma {:induction false} DrainIssuesEachRequestOnce(q: seq<nat>, requests: map<nat, StreamRequest>, id: nat)
    requires Registered(q, requests) && Distinct(q)
    ensures CallsFor(IssuedCalls(q, requests), id) == if id in q then 1 else 0
  {
    if q != [] {
      var calls := IssuedCalls(q, requests);
      DrainIssuesEachRequestOnce(q[1..], requests, id);
      assert calls[1..] == IssuedCalls(q[1..], requests);
      assert calls[0].param.userData == q[0];
      assert q == [q[0]] + q[1..];
      assert q[0] !in q[1..];
    }
  }

  /** Registering a new request, whose handle is not queued yet, keeps the
      queue free of repeated entries with every entry naming its request. */
  lemma RegisteringNewRequest(q: seq<nat>, requests: map<nat, StreamRequest>, r: StreamRequest)
    requires Registered(q, requests) && Distinct(q) && r.id !in q
    ensures Registered(q + [r.id], requests[r.id := r]) && Distinct(q + [r.id])
    ensures Queued(q + [r.id], requests[r.id := r]) == Queued(q, requests) + {r}
  {
    var q', m := q + [r.id], requests[r.id := r];
    forall i | 0 <= i < |q| ensures q'[i] == q[i] && m[q'[i]] == requests[q[i]] {
    }
    assert q'[|q|] == r.id;
  }

  /** Once the head of a registered queue without repeated entries is
      taken, the rest is still such a queue, its requests are among the
      queue's and the head's request is not one of them. */
  lemma QueueTail(q: seq<nat>, requests: map<nat, StreamRequest>)
    requires q != [] && Registered(q, requests) && Distinct(q)
    ensures Registered(q[1..], requests) && Distinct(q[1..])
    ensures Queued(q[1..], requests) <= Queued(q, requests)
    ensures requests[q[0]] !in Queued(q[1..], requests)
  {
    forall o | o in Queued(q[1..], requests) ensures o in Queued(q, requests) && o != requests[q[0]] {
      var k :| 0 <= k < |q[1..]| && o == requests[q[1..][k]];
      assert o == requests[q[k + 1]];
    }
  }

  /** The drain's calls are the head's call followed by the rest's. */
  lemma IssuedCallsHead(q: seq<nat>, requests: map<nat, StreamRequest>)
    requires q != [] && Registered(q, requests)
    ensures Registered(q[1..], requests)
    ensures IssuedCalls(q, requests) == [requests[q[0]].IssuedCall()] + IssuedCalls(q[1..], requests)
  {
  }

  /** One step of the drain: take the oldest queued closure, the one of
      request `r`, and run it; the requests still queued are untouched. */
  method RunNextNotification(w: Worker, t: Transport, requests: map<nat, StreamRequest>, r: StreamRequest,
                             native: nat -> StatusPtr)
    requires w.notifications != [] && Registered(w.notifications, requests) && Distinct(w.notifications)
    requires r == requests[w.notifications[0]]
    requires forall i :: 0 <= i < |w.notifications| ==> requests[w.notifications[i]].Unpopulated()
    modifies w, t`streamCalls, r`state, r`processed
    ensures w.notifications == old(w.notifications)[1..] && w.progressCount == old(w.progressCount)
    ensures t.streamCalls == old(t.streamCalls) + [r.IssuedCall()]
    ensures r.state == AfterProcess(native(r.id)) && r.processed == [r.ProcessedCall(native(r.id))]
    ensures forall i :: 0 <= i < |w.notifications| ==> requests[w.notifications[i]].Unpopulated()
  {
    ghost var q := w.notifications;
    var id := w.TakeNotificationRequest();
    r.Populate(t, native(id));
    forall j | 0 <= j < |q| - 1
      ensures requests[q[1..][j]].Unpopulated()
    {
      assert q[1..][j] == q[j + 1] && q[j + 1] != q[0];
    }
  }

  /** The worker draining its notification queue: each queued closure runs
      once, in order, populating its request (`native` gives what each
      request's native stream call answers). */
  method ProgressNotifications(w: Worker, t: Transport, requests: map<nat, StreamRequest>,
                               native: nat -> StatusPtr)
    requires Registered(w.notifications, requests) && Distinct(w.notifications)
    requires forall i :: 0 <= i < |w.notifications| ==> requests[w.notifications[i]].Unpopulated()
    modifies w, t`streamCalls, Queued(w.notifications, requests)`state, Queued(w.notifications, requests)`processed
    ensures w.notifications == [] && w.progressCount == old(w.progressCount)
    ensures t.streamCalls == old(t.streamCalls) + IssuedCalls(old(w.notifications), requests)
    ensures forall i :: 0 <= i < |old(w.notifications)| ==>
      var r := requests[old(w.notifications)[i]];
      r.state == AfterProcess(native(r.id)) && r.processed == [r.ProcessedCall(native(r.id))]
    decreases |w.notifications|
  {
    if w.notifications == [] {
      return;
    }
    ghost var q := w.notifications;
    var r := requests[w.notifications[0]];
    QueueTail(q, requests);
    RunNextNotification(w, t, requests, r, native);
    ProgressNotifications(w, t, requests, native);
    IssuedCallsHead(q, requests);
    forall i | 0 <= i < |q|
      ensures requests[q[i]].state == AfterProcess(native(q[i]))
      ensures requests[q[i]].processed == [requests[q[i]].ProcessedCall(native(q[i]))]
    {
      if i > 0 {
        assert q[i] == q[1..][i - 1];
      }
    }
  }

  /** A stream receive end to end: creating it queues it and issues nothing;
      one drain of the queue issues exactly one receive, with WAITALL, and
      completes the request when the transport answers at once. */
  method StreamReceiveScenario() returns (t: Transport, before: RequestState, request: StreamRequest)
    ensures before == PendingRegistration
    ensures |t.streamCalls| == 1 && t.streamCalls[0].StreamRecvNbx?
    ensures t.streamCalls[0].param.flags == {WaitAll} && t.streamCalls[0].length == 64
    ensures request.state == Completed(Ok)
  {
    t := new Transport();
    var w := new Worker(Ref(1));
    var cell := new StatusCell();
    var e := new Endpoint.Connected(OfWorker(w), true, 2, cell);
    request := new StreamRequest(w, e, false, Ref(3), 64, 5);
    before := request.state;
    assert t.streamCalls == [];
    ProgressNotifications(w, t, map[5 := request], _ => Immediate(Ok));
    assert IssuedCalls([5], map[5 := request])[0] == request.IssuedCall();
  }

  /** A stream send whose native call does not finish at once: the drain
      leaves it waiting for its callback, the send callback completes it
      under "stream_send", and a second completion changes nothing. */
  method StreamSendScenario() returns (request: StreamRequest, drained: RequestState)
    ensures drained == AwaitingCallback
    ensures request.state == Completed(Ok) && request.completedBy == Some("stream_send")
  {
    var t := new Transport();
    var w := new Worker(Ref(1));
    var cell := new StatusCell();
    var e := new Endpoint.Connected(OfWorker(w), true, 2, cell);
    request := new StreamRequest(w, e, true, Ref(3), 64, 5);
    ProgressNotifications(w, t, map[5 := request], _ => Pending(NativeRequest(5, 1, Ok)));
    drained := request.state;
    request.Callback(StreamSendCallback, Ok);
    request.Callback(StreamSendCallback, Failed(-1));
  }
}
