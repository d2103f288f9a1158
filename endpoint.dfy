/** UCXXEndpoint (cpp/include/ucxx/endpoint.h): a connection endpoint that
    owns one native endpoint handle. It is created by one of three factories,
    records the status the transport's error callback reports, and on
    destruction closes the handle, forcing the close when error handling is
    enabled and an error was reported, and otherwise flushing it. */
module Endpoints {
  import opened Ucx
  import opened Components

  type uint16 = x: int | 0 <= x < 0x1_0000

  /** What an endpoint is created from: a worker, or a listener whose parent
      is the worker (the source's std::shared_ptr<UCXXComponent>). */
  datatype Parent = OfWorker(worker: Worker) | OfListener(listener: Listener)

  /** The errors the factories and the constructor raise. */
  datatype Error =
    | WorkerNotInitialized      // UCXXError("Worker not initialized")
    | AddressNotInitialized     // UCXXError("Address not initialized")
    | InvalidAddress            // UCXXError("Invalid IP address or hostname")
    | BadAlloc                  // std::bad_alloc
    | CreateFailed(status: Status)  // assert_ucs_status on ucp_ep_create

  /** getWorker: the component itself when it is a worker, otherwise the
      parent of the listener. */
  function GetWorker(p: Parent): (w: Worker?)
    ensures p.OfWorker? ==> w == p.worker
    ensures p.OfListener? ==> w == p.listener.parent
  {
    match p
    case OfWorker(w) => w
    case OfListener(l) => l.parent
  }

  /** The close mode the destructor picks. */
  function SelectCloseMode(errorHandling: bool, status: Status): (m: CloseMode)
    ensures m == Force <==> errorHandling && status != Ok
    ensures m == Flush <==> !errorHandling || status == Ok
  {
    if errorHandling && status != Ok then Force else Flush
  }

  /** The number of progress rounds the destructor runs while polling a
      pending close request whose worker has already progressed `start`
      times: the loop stops at the first round the request is no longer in
      progress. */
  function PollsToComplete(r: NativeRequest, start: nat): (n: nat)
    ensures CheckStatus(r, start + n) != InProgress
    ensures forall p :: start <= p < start + n ==> CheckStatus(r, p) == InProgress
    decreases r.completesAt - start
  {
    if CheckStatus(r, start) != InProgress then 0 else 1 + PollsToComplete(r, start + 1)
  }

  /** One input check of a factory: whether it passes, and what it raises if not. */
  datatype Check = Check(passes: bool, error: Error)

  /** Checks run in order: the error of the first one that fails, if any. */
  function FirstFailure(checks: seq<Check>): (r: Option<Error>)
    ensures r.None? <==> forall i :: 0 <= i < |checks| ==> checks[i].passes
    ensures r.Some? ==> exists i :: 0 <= i < |checks| && !checks[i].passes && checks[i].error == r.value
                                    && forall j :: 0 <= j < i ==> checks[j].passes
  {
    if checks == [] then None
    else if !checks[0].passes then Some(checks[0].error)
    else
      var rest := FirstFailure(checks[1..]);
      if rest.Some? then
        var i :| 0 <= i < |checks| - 1 && !checks[1..][i].passes && checks[1..][i].error == rest.value
                 && forall j :: 0 <= j < i ==> checks[1..][j].passes;
        assert !checks[i + 1].passes && forall j :: 0 <= j < i + 1 ==> checks[j].passes;
        rest
      else
        rest
  }

  /** The field bits every factory sets for the constructor's error handling. */
  const ErrFields := {ErrHandlingModeField, ErrHandlerField}

  /** The record the hostname factory fills before it encodes the socket
      address into it. */
  const HostnameRecord := NoParams.(fieldMask := {FlagsField, SockAddrField} + ErrFields,
                                    flags := {ClientServer})

  /** createEndpointFromHostname up to the constructor call: the worker
      check, name resolution (`resolve` stands for gethostbyname and gives the
      canonical name), then encoding of the socket address (`encodes` stands
      for sockaddr_utils_set succeeding). */
  function HostnameParams(worker: Worker?, ip: string, port: uint16,
                          resolve: string -> Option<string>,
                          encodes: (string, uint16) -> bool): (r: Result<EpParams, Error>)
    ensures !Live(worker) ==> r == Failure(WorkerNotInitialized)
    ensures Live(worker) && resolve(ip).None? ==> r == Failure(InvalidAddress)
    ensures Live(worker) && resolve(ip).Some? && !encodes(resolve(ip).value, port) ==> r == Failure(BadAlloc)
    ensures r.Success? <==> Live(worker) && resolve(ip).Some? && encodes(resolve(ip).value, port)
    ensures r.Success? ==>
      && r.value.fieldMask == {FlagsField, SockAddrField} + ErrFields
      && r.value.flags == {ClientServer}
      && r.value.sockaddr == Some(SockAddr(resolve(ip).value, port))
  {
    if !Live(worker) then Failure(WorkerNotInitialized)
    else match resolve(ip)
      case None => Failure(InvalidAddress)
      case Some(name) =>
        if !encodes(name, port) then Failure(BadAlloc)
        else Success(HostnameRecord.(sockaddr := Some(SockAddr(name, port))))
  }

  /** createEndpointFromConnRequest up to the constructor call. */
  function ConnRequestParams(listener: Option<Listener>, connRequest: Ptr): (r: Result<EpParams, Error>)
    ensures r.Failure? <==> listener.None? || listener.value.handle.Null?
    ensures r.Failure? ==> r.error == WorkerNotInitialized
    ensures r.Success? ==>
      && r.value.fieldMask == {FlagsField, ConnRequestField} + ErrFields
      && r.value.flags == {NoLoopback}
      && r.value.connRequest == Some(connRequest)
  {
    if listener.None? || listener.value.handle.Null? then Failure(WorkerNotInitialized)
    else Success(NoParams.(fieldMask := {FlagsField, ConnRequestField} + ErrFields,
                           flags := {NoLoopback},
                           connRequest := Some(connRequest)))
  }

  /** An address descriptor that exists, has a handle and is not empty. */
  predicate AddressReady(address: Option<Address>)
  {
    address.Some? && address.value.handle.Ref? && address.value.length != 0
  }

  /** createEndpointFromWorkerAddress up to the constructor call. */
  function WorkerAddressParams(worker: Worker?, address: Option<Address>): (r: Result<EpParams, Error>)
    ensures !Live(worker) ==> r == Failure(WorkerNotInitialized)
    ensures Live(worker) && !AddressReady(address) ==> r == Failure(AddressNotInitialized)
    ensures r.Success? <==> Live(worker) && AddressReady(address)
    ensures r.Success? ==>
      && r.value.fieldMask == {RemoteAddressField} + ErrFields
      && FlagsField !in r.value.fieldMask
      && r.value.address == Some(address.value.handle)
  {
    if !Live(worker) then Failure(WorkerNotInitialized)
    else if !AddressReady(address) then Failure(AddressNotInitialized)
    else Success(NoParams.(fieldMask := {RemoteAddressField} + ErrFields,
                           address := Some(address.value.handle)))
  }


  /** What the constructor adds before ucp_ep_create: the transport's error
      handling mode NONE and the error callback, whose argument `arg` is the
      endpoint's own status variable, whatever the endpoint's own
      error-handling flag. */
  function WithErrorHandler(p: EpParams, arg: StatusCell): (q: EpParams)
    ensures q.errMode == Some(ModeNone) && q.errHandler == Some(arg)
    ensures q.fieldMask == p.fieldMask && q.flags == p.flags && q.sockaddr == p.sockaddr
    ensures q.connRequest == p.connRequest && q.address == p.address
  {
    p.(errMode := Some(ModeNone), errHandler := Some(arg))
  }

  predicate ExactlyOne(a: bool, b: bool, c: bool)
  {
    (a && !b && !c) || (!a && b && !c) || (!a && !b && c)
  }

  /** A parameter record UCX can read: a member is set exactly when its bit
      is in the mask, and exactly one way of reaching the peer is named. */
  predicate WellFormed(p: EpParams)
  {
    && (FlagsField in p.fieldMask <==> p.flags != {})
    && (SockAddrField in p.fieldMask <==> p.sockaddr.Some?)
    && (ConnRequestField in p.fieldMask <==> p.connRequest.Some?)
    && (RemoteAddressField in p.fieldMask <==> p.address.Some?)
    && (ErrHandlingModeField in p.fieldMask <==> p.errMode.Some?)
    && (ErrHandlerField in p.fieldMask <==> p.errHandler.Some?)
    && ExactlyOne(SockAddrField in p.fieldMask, ConnRequestField in p.fieldMask,
                  RemoteAddressField in p.fieldMask)
  }

  /** Each factory names its error-handling members in the mask but leaves
      them to the constructor: its record becomes well formed exactly when
      the constructor completes it, and the three factories reach the peer in
      three different ways. */
  lemma FactoryParamsWellFormed(worker: Worker?, ip: string, port: uint16,
                                resolve: string -> Option<string>, encodes: (string, uint16) -> bool,
                                listener: Option<Listener>, connRequest: Ptr, address: Option<Address>,
                                arg: StatusCell)
    ensures var r := HostnameParams(worker, ip, port, resolve, encodes);
      r.Success? ==> !WellFormed(r.value) && WellFormed(WithErrorHandler(r.value, arg))
                     && SockAddrField in r.value.fieldMask
    ensures var r := ConnRequestParams(listener, connRequest);
      r.Success? ==> !WellFormed(r.value) && WellFormed(WithErrorHandler(r.value, arg))
                     && ConnRequestField in r.value.fieldMask
    ensures var r := WorkerAddressParams(worker, address);
      r.Success? ==> !WellFormed(r.value) && WellFormed(WithErrorHandler(r.value, arg))
                     && RemoteAddressField in r.value.fieldMask
  {
  }

  /** The hostname factory validates the worker, then the name, then the
      encoding, and raises the error of the first check that fails. */
  lemma HostnameValidationOrder(worker: Worker?, ip: string, port: uint16,
                                resolve: string -> Option<string>, encodes: (string, uint16) -> bool)
    ensures var r := HostnameParams(worker, ip, port, resolve, encodes);
      var f := FirstFailure([Check(Live(worker), WorkerNotInitialized),
                             Check(resolve(ip).Some?, InvalidAddress),
                             Check(resolve(ip).None? || encodes(resolve(ip).value, port), BadAlloc)]);
      (r.Failure? <==> f.Some?) && (r.Failure? ==> r.error == f.value)
  {
    var checks := [Check(Live(worker), WorkerNotInitialized),
                   Check(resolve(ip).Some?, InvalidAddress),
                   Check(resolve(ip).None? || encodes(resolve(ip).value, port), BadAlloc)];
    assert checks[1..][1..] == [checks[2]];
  }

  /** The address factory validates the worker, then the address. */
  lemma WorkerAddressValidationOrder(worker: Worker?, address: Option<Address>)
    ensures var r := WorkerAddressParams(worker, address);
      var f := FirstFailure([Check(Live(worker), WorkerNotInitialized),
                             Check(AddressReady(address), AddressNotInitialized)]);
      (r.Failure? <==> f.Some?) && (r.Failure? ==> r.error == f.value)
  {
    var checks := [Check(Live(worker), WorkerNotInitialized),
                   Check(AddressReady(address), AddressNotInitialized)];
    assert checks[1..][1..] == [];
  }

  /** What the clean-up of a parameter record does. */
  datatype DeleterEffect = DeleterEffect(freesSockaddr: bool, releasesRecord: bool)

  /** EpParamsDeleter as written: it frees the socket address whenever the
      FLAGS bit is in the mask, and never deletes the record itself. */
  function EpParamsDeleterAsWritten(p: EpParams): (e: DeleterEffect)
    ensures e.freesSockaddr <==> FlagsField in p.fieldMask
    ensures !e.releasesRecord
  {
    DeleterEffect(FlagsField in p.fieldMask, false)
  }

  /** The clean-up the deleter is for: free the socket address when one was
      encoded, and release the record. */
  function EpParamsDeleter(p: EpParams): (e: DeleterEffect)
    ensures e.freesSockaddr <==> SockAddrField in p.fieldMask
    ensures e.releasesRecord
  {
    DeleterEffect(SockAddrField in p.fieldMask, true)
  }

  /** A record from the connection-request factory, completed by the
      constructor, has the FLAGS bit but no socket address: the deleter as
      written frees a socket address that was never encoded, and leaks the
      record. */
  lemma DeleterAsWrittenFreesUnsetSockaddr(listener: Listener, connRequest: Ptr, arg: StatusCell)
    requires listener.handle.Ref?
    ensures var p := WithErrorHandler(ConnRequestParams(Some(listener), connRequest).value, arg);
      WellFormed(p) && p.sockaddr.None?
      && EpParamsDeleterAsWritten(p).freesSockaddr && !EpParamsDeleterAsWritten(p).releasesRecord
  {
  }

  /** On every well-formed record the corrected deleter frees the socket
      address exactly when one was encoded, and releases the record. */
  lemma DeleterFreesWhatWasSet(p: EpParams)
    requires WellFormed(p)
    ensures EpParamsDeleter(p).freesSockaddr <==> p.sockaddr.Some?
    ensures EpParamsDeleter(p).releasesRecord
  {
  }

  /** The record the hostname factory releases when encoding the address
      fails is not well formed: its socket address bit is set but the member
      was never encoded, and even the corrected deleter frees it. */
  lemma DeleterOnFailedEncoding()
    ensures !WellFormed(HostnameRecord) && HostnameRecord.sockaddr.None?
    ensures EpParamsDeleterAsWritten(HostnameRecord).freesSockaddr
    ensures EpParamsDeleter(HostnameRecord).freesSockaddr
  {
  }

  /** The socket address members the deleter as written hands to
      sockaddr_utils_free when it runs on `p`. */
  function AsWrittenFrees(p: EpParams): seq<Option<SockAddr>>
  {
    if EpParamsDeleterAsWritten(p).freesSockaddr then [p.sockaddr] else []
  }

  /** The owner of a parameter record (a unique_ptr with EpParamsDeleter)
      going out of scope: the deleter as written runs on the record. */
  method ReleaseParams(t: Transport, p: EpParams)
    modifies t`sockaddrFrees
    ensures t.sockaddrFrees == old(t.sockaddrFrees) + AsWrittenFrees(p)
  {
    if FlagsField in p.fieldMask {
      t.SockaddrFree(p.sockaddr);
    }
  }

  /** `after` is `before` plus one ucp_ep_create call on worker handle `h`
      with `params` completed by the constructor. */
  predicate CreateLogged(before: seq<CreateCall>, after: seq<CreateCall>, h: Ptr, params: EpParams)
  {
    && |after| == |before| + 1 && after[..|before|] == before
    && after[|before|].worker == h
    && after[|before|].params.errHandler.Some?
    && after[|before|].params == WithErrorHandler(params, after[|before|].params.errHandler.value)
  }

  class Endpoint {
    var handle: Ptr
    /** _status: the variable the error handler of a native endpoint this
        object creates writes into. */
    var status: StatusCell
    var errorHandling: bool
    var parent: Option<Parent>

    /** UCXXEndpoint() = default. */
    constructor ()
      ensures handle.Null? && fresh(status) && status.value == Ok && errorHandling && parent.None?
    {
      handle, errorHandling, parent := Null, true, None;
      status := new StatusCell();
    }

    /** The state the private constructor leaves once ucp_ep_create has
        returned the handle `ep`; `status` is the object's own status
        variable. */
    constructor Connected(p: Parent, errorHandling: bool, ep: nat, status: StatusCell)
      ensures handle == Ref(ep) && this.status == status
      ensures this.errorHandling == errorHandling && parent == Some(p)
    {
      handle, this.status, this.errorHandling, parent := Ref(ep), status, errorHandling, Some(p);
    }

    /** The private constructor: resolves the worker, rejects a missing or
        uninitialised one, completes the parameters with the error handler
        writing into the new object's status, and creates the native endpoint
        (`created` is what ucp_ep_create answers). The record's deleter runs
        on every path. */
    static method Create(t: Transport, p: Parent, params: EpParams, errorHandling: bool,
                         created: EpCreateResult) returns (r: Result<Endpoint, Error>)
      modifies t`created, t`handlers, t`sockaddrFrees
      ensures t.sockaddrFrees == old(t.sockaddrFrees) + AsWrittenFrees(params)
      ensures !Live(GetWorker(p)) ==>
        r == Failure(WorkerNotInitialized) && t.created == old(t.created) && t.handlers == old(t.handlers)
      ensures Live(GetWorker(p)) ==>
        && CreateLogged(old(t.created), t.created, GetWorker(p).handle, params)
        && fresh(t.created[|old(t.created)|].params.errHandler.value)
      ensures Live(GetWorker(p)) && created.EpCreateFailed? ==>
        r == Failure(CreateFailed(Failed(created.code))) && t.handlers == old(t.handlers)
      ensures Live(GetWorker(p)) && created.EpCreated? ==>
        && r.Success? && fresh(r.value) && fresh(r.value.status)
        && r.value.Opened(p, errorHandling, created.ep)
        && t.created[|old(t.created)|].params.errHandler == Some(r.value.status)
        && t.handlers == old(t.handlers)[created.ep := r.value.status]
        && r.value.ReceivesErrors(t)
    {
      var worker := GetWorker(p);
      if !Live(worker) {
        ReleaseParams(t, params);
        return Failure(WorkerNotInitialized);
      }
      var cell := new StatusCell();
      var completed := WithErrorHandler(params, cell);
      t.EpCreate(CreateCall(worker.handle, completed), created);
      if created.EpCreateFailed? {
        r := Failure(CreateFailed(Failed(created.code)));
      } else {
        var e := new Endpoint.Connected(p, errorHandling, created.ep, cell);
        r := Success(e);
      }
      ReleaseParams(t, completed);
    }

    /** A freshly created endpoint: the handle `ep`, status OK, the given
        error-handling flag and parent. */
    predicate Opened(p: Parent, errorHandling: bool, ep: nat)
      reads this, status
    {
      handle == Ref(ep) && status.value == Ok && this.errorHandling == errorHandling && parent == Some(p)
    }

    /** Errors UCX reports on this endpoint's native endpoint reach this
        object: the handler of the handle writes this object's status. */
    predicate ReceivesErrors(t: Transport)
      reads this, t
    {
      handle.Ref? ==> handle.addr in t.handlers && t.handlers[handle.addr] == status
    }

    /** The move constructor: takes the handle and nulls the source's; every
        other member, the status variable included, is the new object's own
        default, so the native endpoint's error handler still writes the
        source's status. */
    constructor MoveFrom(o: Endpoint)
      modifies o`handle
      ensures handle == old(o.handle) && o.handle.Null?
      ensures fresh(status) && status.value == Ok && errorHandling && parent.None?
    {
      handle, errorHandling, parent := o.handle, true, None;
      status := new StatusCell();
      new;
      o.handle := Null;
    }

    /** A move that carries the whole endpoint: the handle, the status
        variable the handle's error handler writes, the flag and the parent,
        leaving the source a null handle and a status variable of its own. */
    constructor MoveFromAll(o: Endpoint)
      modifies o`handle, o`status
      ensures handle == old(o.handle) && o.handle.Null?
      ensures status == old(o.status) && errorHandling == old(o.errorHandling) && parent == old(o.parent)
      ensures fresh(o.status) && o.status.value == Ok
      ensures PlannedCloseMode() == old(o.PlannedCloseMode())
      ensures ResolvedWorker() == old(o.ResolvedWorker())
    {
      handle, status, errorHandling, parent := o.handle, o.status, o.errorHandling, o.parent;
      new;
      o.handle := Null;
      o.status := new StatusCell();
    }

    /** The move assignment: overwrites only this endpoint's handle with the
        source's and nulls the source's (a self-move keeps the handle). The
        status variable stays, so errors on the handle still go to the
        source's. */
    method MoveAssign(o: Endpoint)
      modifies this`handle, o`handle
      ensures handle == old(o.handle)
      ensures o != this ==> o.handle.Null?
    {
      var h := o.handle;
      o.handle := Null;
      handle := h;
    }

    /** A move assignment that carries the whole endpoint, as MoveFromAll
        does (a self-move keeps everything). */
    method MoveAssignAll(o: Endpoint)
      modifies this, o`handle, o`status
      ensures handle == old(o.handle) && status == old(o.status)
      ensures errorHandling == old(o.errorHandling) && parent == old(o.parent)
      ensures o != this ==> o.handle.Null? && fresh(o.status) && o.status.value == Ok
    {
      var h, c, e, p := o.handle, o.status, o.errorHandling, o.parent;
      var cell := new StatusCell();
      o.handle, o.status := Null, cell;
      handle, status, errorHandling, parent := h, c, e, p;
    }

    /** The close mode destroying this endpoint now would use. */
    function PlannedCloseMode(): CloseMode
      reads this, status
    {
      SelectCloseMode(errorHandling, status.value)
    }

    /** The worker getWorker finds from this endpoint's parent, if any. */
    function ResolvedWorker(): Worker?
      reads this
    {
      if parent.Some? then GetWorker(parent.value) else null
    }

    function WorkerFrame(): set<Worker>
      reads this
    {
      var w := ResolvedWorker();
      if w == null then {} else {w}
    }

    /** What the destructor needs to run without dereferencing a null
        pointer when the close comes back pending: a parent, since getWorker
        dereferences the missing listener of a moved-from object, and a worker
        to progress unless the request is already done at the first check,
        whatever the progress count. */
    predicate CanClose(closeResult: StatusPtr)
      reads this
    {
      handle.Ref? && closeResult.Pending? ==>
        parent.Some? && (ResolvedWorker() != null || closeResult.request.completesAt == 0)
    }

    /** The destructor. `closeResult` is what ucp_ep_close_nb answers. */
    method Destroy(t: Transport, closeResult: StatusPtr)
      requires CanClose(closeResult)
      modifies t`closes, t`freed, t`log, WorkerFrame()
      ensures t.created == old(t.created) && t.streamCalls == old(t.streamCalls)
      ensures handle.Null? ==> unchanged(t) && unchanged(WorkerFrame())
      ensures handle.Ref? ==>
        t.closes == old(t.closes) + [CloseCall(handle.addr, SelectCloseMode(errorHandling, status.value))]
      ensures handle.Ref? && closeResult.Pending? ==>
        t.freed == old(t.freed) + [closeResult.request.id] && t.log == old(t.log)
      ensures handle.Ref? && closeResult.Pending? && ResolvedWorker() != null ==>
        var w, req := ResolvedWorker(), closeResult.request;
        && w.progressCount == old(w.progressCount) + PollsToComplete(req, old(w.progressCount))
        && CheckStatus(req, w.progressCount) != InProgress
        && w.notifications == old(w.notifications)
      ensures handle.Ref? && closeResult.Immediate? ==>
        && unchanged(WorkerFrame())
        && t.freed == old(t.freed)
        && t.log == old(t.log) + (if closeResult.status == Ok then [] else [CloseError(closeResult.status)])
    {
      if handle.Null? {
        return;
      }
      var mode := SelectCloseMode(errorHandling, status.value);
      t.EpCloseNb(CloseCall(handle.addr, mode));
      if closeResult.Pending? {
        var req := closeResult.request;
        var w := ResolvedWorker();
        if w != null {
          ghost var start := w.progressCount;
          ghost var n := PollsToComplete(req, start);
          while CheckStatus(req, w.progressCount) == InProgress
            invariant start <= w.progressCount <= start + n
            invariant w.notifications == old(w.notifications)
            modifies w
            decreases start + n - w.progressCount
          {
            w.Progress();
          }
        }
        t.RequestFree(req);
      } else if closeResult.status != Ok {
        t.Log(CloseError(closeResult.status));
      }
    }
  }

  /** _err_cb: UCX reports status `s` on native endpoint `ep` to the argument
      its error handler was created with, the status variable of the object
      that created it, and the callback logs it. Every endpoint holding the
      handle and receiving its errors now closes by that status. */
  method ErrorCallback(t: Transport, ep: nat, s: Status)
    requires ep in t.handlers
    modifies t.Handler(ep)`value, t`log
    ensures t.handlers == old(t.handlers) && t.handlers[ep].value == s
    ensures t.log == old(t.log) + [ErrorCallbackCalled(s)]
    ensures forall e: Endpoint :: e.handle == Ref(ep) && e.ReceivesErrors(t) ==>
      e.PlannedCloseMode() == SelectCloseMode(e.errorHandling, s)
  {
    t.handlers[ep].value := s;
    t.Log(ErrorCallbackCalled(s));
  }

  /** createEndpointFromHostname. A failed encoding releases the record,
      with its FLAGS bit set, before the constructor is reached. */
  method CreateEndpointFromHostname(t: Transport, worker: Worker?, ip: string, port: uint16,
                                    errorHandling: bool, resolve: string -> Option<string>,
                                    encodes: (string, uint16) -> bool, created: EpCreateResult)
    returns (r: Result<Endpoint, Error>)
    modifies t`created, t`handlers, t`sockaddrFrees
    ensures var params := HostnameParams(worker, ip, port, resolve, encodes);
      && (params.Failure? ==>
            && r == Failure(params.error) && t.created == old(t.created) && t.handlers == old(t.handlers)
            && t.sockaddrFrees == old(t.sockaddrFrees) + (if params.error == BadAlloc then [None] else []))
      && (params.Success? ==>
            && CreateLogged(old(t.created), t.created, worker.handle, params.value)
            && t.sockaddrFrees == old(t.sockaddrFrees) + [params.value.sockaddr]
            && (created.EpCreateFailed? ==>
                  r == Failure(CreateFailed(Failed(created.code))) && t.handlers == old(t.handlers))
            && (created.EpCreated? ==>
                  && r.Success? && fresh(r.value.status)
                  && t.handlers == old(t.handlers)[created.ep := r.value.status]
                  && r.value.ReceivesErrors(t)))
    ensures r.Success? ==> fresh(r.value) && r.value.Opened(OfWorker(worker), errorHandling, created.ep)
  {
    var params := HostnameParams(worker, ip, port, resolve, encodes);
    if params.Failure? {
      if params.error == BadAlloc {
        ReleaseParams(t, HostnameRecord);
      }
      return Failure(params.error);
    }
    r := Endpoint.Create(t, OfWorker(worker), params.value, errorHandling, created);
  }

  /** createEndpointFromConnRequest: the endpoint's parent is the listener,
      and the worker is the listener's parent. Once the listener is accepted
      the record reaches the constructor, whose deleter frees its socket
      address member although it was never set. */
  method CreateEndpointFromConnRequest(t: Transport, listener: Option<Listener>, connRequest: Ptr,
                                       errorHandling: bool, created: EpCreateResult)
    returns (r: Result<Endpoint, Error>)
    modifies t`created, t`handlers, t`sockaddrFrees
    ensures var params := ConnRequestParams(listener, connRequest);
      && (params.Failure? ==> r == Failure(params.error) && unchanged(t))
      && (params.Success? ==> t.sockaddrFrees == old(t.sockaddrFrees) + [None])
      && (params.Success? && !Live(listener.value.parent) ==>
            r == Failure(WorkerNotInitialized) && t.created == old(t.created) && t.handlers == old(t.handlers))
      && (params.Success? && Live(listener.value.parent) ==>
            && CreateLogged(old(t.created), t.created, listener.value.parent.handle, params.value)
            && (created.EpCreateFailed? ==>
                  r == Failure(CreateFailed(Failed(created.code))) && t.handlers == old(t.handlers))
            && (created.EpCreated? ==>
                  && r.Success? && fresh(r.value.status)
                  && t.handlers == old(t.handlers)[created.ep := r.value.status]
                  && r.value.ReceivesErrors(t)))
    ensures r.Success? ==> fresh(r.value) && r.value.Opened(OfListener(listener.value), errorHandling, created.ep)
  {
    var params := ConnRequestParams(listener, connRequest);
    if params.Failure? {
      return Failure(params.error);
    }
    r := Endpoint.Create(t, OfListener(listener.value), params.value, errorHandling, created);
  }

  /** createEndpointFromWorkerAddress. Its record has no FLAGS bit, so the
      deleter frees nothing. */
  method CreateEndpointFromWorkerAddress(t: Transport, worker: Worker?, address: Option<Address>,
                                         errorHandling: bool, created: EpCreateResult)
    returns (r: Result<Endpoint, Error>)
    modifies t`created, t`handlers, t`sockaddrFrees
    ensures t.sockaddrFrees == old(t.sockaddrFrees)
    ensures var params := WorkerAddressParams(worker, address);
      && (params.Failure? ==> r == Failure(params.error) && unchanged(t))
      && (params.Success? ==>
            && CreateLogged(old(t.created), t.created, worker.handle, params.value)
            && (created.EpCreateFailed? ==>
                  r == Failure(CreateFailed(Failed(created.code))) && t.handlers == old(t.handlers))
            && (created.EpCreated? ==>
                  && r.Success? && fresh(r.value.status)
                  && t.handlers == old(t.handlers)[created.ep := r.value.status]
                  && r.value.ReceivesErrors(t)))
    ensures r.Success? ==> fresh(r.value) && r.value.Opened(OfWorker(worker), errorHandling, created.ep)
  {
    var params := WorkerAddressParams(worker, address);
    if params.Failure? {
      return Failure(params.error);
    }
    r := Endpoint.Create(t, OfWorker(worker), params.value, errorHandling, created);
  }

  /** An endpoint opened by hostname with error handling on whose connection
      then fails: the failure reaches it through the handler bound at
      creation, and its destructor would close the handle with FORCE. */
  method HostnameEndpointForcedAfterError(t: Transport, worker: Worker, ip: string, port: uint16,
                                          resolve: string -> Option<string>,
                                          encodes: (string, uint16) -> bool,
                                          ep: nat, code: ErrorCode)
    returns (r: Result<Endpoint, Error>)
    requires HostnameParams(worker, ip, port, resolve, encodes).Success?
    modifies t`created, t`handlers, t`sockaddrFrees, t`log
    ensures r.Success? && r.value.handle == Ref(ep) && r.value.status.value == Failed(code)
    ensures r.Success? && r.value.PlannedCloseMode() == Force
  {
    r := CreateEndpointFromHostname(t, worker, ip, port, true, resolve, encodes, EpCreated(ep));
    ErrorCallback(t, ep, Failed(code));
  }

  /** The move constructor as written loses the state the close depends on.
      An endpoint with error handling on is moved, and then its connection
      fails: the error lands in the moved-from object, which would force the
      close but holds no handle, while the endpoint holding the handle still
      flushes it, and if that close comes back pending it has no worker to
      progress. */
  method MoveFromLosesCloseState() returns (t: Transport, source: Endpoint, moved: Endpoint, closeResult: StatusPtr)
    ensures source.handle.Null? && source.PlannedCloseMode() == Force
    ensures moved.handle.Ref? && !moved.ReceivesErrors(t) && moved.PlannedCloseMode() == Flush
    ensures !moved.CanClose(closeResult)
  {
    t := new Transport();
    var w := new Worker(Ref(1));
    var r := Endpoint.Create(t, OfWorker(w), NoParams, true, EpCreated(7));
    source := r.value;
    moved := new Endpoint.MoveFrom(source);
    ErrorCallback(t, 7, Failed(-25));
    closeResult := Pending(NativeRequest(0, 1, Ok));
  }

  /** With the full move, errors reported after the move reach the moved
      endpoint, which closes by them in the source's mode, and it can close
      whenever the source could. */
  method MoveFromAllKeepsCloseState(t: Transport, source: Endpoint, closeResult: StatusPtr, s: Status)
    returns (moved: Endpoint)
    requires source.handle.Ref? && source.ReceivesErrors(t) && source.CanClose(closeResult)
    modifies source`handle, source`status, source.status`value, t`log
    ensures fresh(moved) && moved.handle == old(source.handle)
    ensures moved.ReceivesErrors(t) && moved.CanClose(closeResult)
    ensures moved.PlannedCloseMode() == SelectCloseMode(old(source.errorHandling), s)
  {
    moved := new Endpoint.MoveFromAll(source);
    ErrorCallback(t, moved.handle.addr, s);
  }

  /** The move assignment as written: after `target = std::move(source)` an
      error on the connection lands in the source, and the target, which
      holds the handle, still flushes it. */
  method MoveAssignMissesErrors() returns (t: Transport, target: Endpoint, source: Endpoint)
    ensures target.handle.Ref? && !target.ReceivesErrors(t) && target.PlannedCloseMode() == Flush
    ensures source.handle.Null? && source.PlannedCloseMode() == Force
  {
    t := new Transport();
    var w := new Worker(Ref(1));
    var a := Endpoint.Create(t, OfWorker(w), NoParams, true, EpCreated(7));
    var b := Endpoint.Create(t, OfWorker(w), NoParams, true, EpCreated(8));
    target, source := a.value, b.value;
    target.MoveAssign(source);
    ErrorCallback(t, 8, Failed(-25));
  }

  /** With the full move assignment, errors reported afterwards reach the
      target, which closes by them in the source's mode. */
  method MoveAssignAllReceivesErrors(t: Transport, target: Endpoint, source: Endpoint, s: Status)
    requires source.handle.Ref? && source.ReceivesErrors(t)
    modifies target, source`handle, source`status, source.status`value, t`log
    ensures target.handle == old(source.handle) && target.ReceivesErrors(t)
    ensures target.PlannedCloseMode() == SelectCloseMode(old(source.errorHandling), s)
  {
    target.MoveAssignAll(source);
    ErrorCallback(t, target.handle.addr, s);
  }
}
