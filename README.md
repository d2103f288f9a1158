# UCXX endpoint and stream request, modelled in Dafny

This project models two classes of the UCXX C++ library, a C++ layer over the
UCX communication framework (UCP):

- `UCXXEndpoint` (`cpp/include/ucxx/endpoint.h`). A connection endpoint owns
  one native UCP endpoint handle. Three factories create it: from a hostname
  and port, from a listener's connection request, or from a remote worker
  address. Each factory validates its inputs and fills a `ucp_ep_params_t`
  record. The private constructor resolves the worker, installs an error
  callback that writes into the endpoint's status field, and calls
  `ucp_ep_create`. The destructor closes the handle once. It forces the close
  when error handling is enabled and the callback reported an error, and
  flushes it otherwise. A pending close is polled while the worker progresses,
  then freed. The move constructor and move assignment hand over the handle.
- `UCXXRequestStream` (`cpp/include/ucxx/request_stream.h`). A stream send
  or receive issues no native call when it is constructed. It captures the
  operation and registers a deferred closure with the worker. When the worker
  drains its queue, the closure issues `ucp_stream_send_nbx` or
  `ucp_stream_recv_nbx` and passes the result to `process`. Each completion
  callback reports under its own operation name.

The files:

- `ucx.dfy`, module `Ucx`: the native API as values. It holds nullable
  handles, `ucs_status_t`, status-or-request results, the parameter records
  and a `Transport` object. `Transport` logs every call that changes the
  library's state (endpoint creation and close, request free, stream calls,
  socket address frees) and every line written to the output streams. It
  also records, for each native endpoint, the status variable its error
  handler writes. What a native call answers is a parameter of the modelled
  operation. A pending native request completes after a given number of
  worker progress rounds.
- `components.dfy`, module `Components`: the worker, listener and address, at
  the interface the core uses. The worker keeps a progress count and the queue
  of deferred notification requests.
- `endpoint.dfy`, module `Endpoints`: the endpoint class, its factories and
  the parameter-record deleter.
- `request_stream.dfy`, module `StreamRequests`: the stream request class,
  the native call it builds, and the worker's drain of the deferred queue.

Behaviours of the code worth knowing, all kept by the model:

- The destructor does not null the handle.
- The error callback overwrites the status every time it runs.
- A failing address check raises "Address not initialized", a different
  error from the worker check.
- The error handler's argument is the address of the creating object's
  `_status` member. It stays bound to that object when the handle is moved
  (see Findings).
- The parameter record's deleter runs whenever the record's owner goes out
  of scope: at the end of the private constructor, on every path, and on the
  hostname factory's `bad_alloc` path.
- Move assignment replaces the target's handle without closing the handle it
  held before.
- When the close comes back pending, the destructor looks up a worker with
  `getWorker`. An endpoint without a parent, such as a move-constructed one,
  makes `getWorker` dereference a null listener (endpoint.h:123). A listener
  parent whose own parent is not a worker gives a null worker. That null
  worker is dereferenced (endpoint.h:108) only if the first status check
  (endpoint.h:107) finds the request still in progress. Otherwise the request
  is freed as usual. `Endpoints.Endpoint.Destroy` requires exactly what avoids
  both dereferences.

## Model

| member | source | states |
|---|---|---|
| Ucx.CheckStatus | cpp/include/ucxx/endpoint.h:107 | a pending native request reports in progress exactly until the worker has progressed the rounds it needs, and then reports its final status |
| Components.Worker.Progress | cpp/include/ucxx/endpoint.h:108 | one progress round advances the worker's round count by one and leaves the notification queue alone |
| Endpoints.GetWorker | cpp/include/ucxx/endpoint.h:117-126 | a worker parent is its own worker; for a listener parent, the worker is the listener's parent, possibly none |
| Endpoints.SelectCloseMode | cpp/include/ucxx/endpoint.h:96-102 | the close is FORCE if and only if error handling is on and the status is not OK, and FLUSH exactly otherwise |
| Endpoints.PollsToComplete | cpp/include/ucxx/endpoint.h:107-108 | the polling loop stops at the first progress round where the close request is no longer in progress, and every earlier round finds it in progress |
| Endpoints.HostnameParams | cpp/include/ucxx/endpoint.h:135-150 | a dead worker gives "Worker not initialized"; an unresolvable name gives "Invalid IP address or hostname"; a failed encoding gives bad_alloc; success holds exactly when all three checks pass; the record then has the FLAGS, SOCK_ADDR and error-handling bits, the CLIENT_SERVER flag and the resolved name with the port |
| Endpoints.HostnameValidationOrder | cpp/include/ucxx/endpoint.h:135-150 | the hostname factory fails with the error of the first failing check, in the order worker, name, encoding |
| Endpoints.ConnRequestParams | cpp/include/ucxx/endpoint.h:161-170 | fails with "Worker not initialized" exactly when the listener is missing or has no handle; otherwise the record has the FLAGS, CONN_REQUEST and error-handling bits, the NO_LOOPBACK flag and the connection request unchanged |
| Endpoints.WorkerAddressParams | cpp/include/ucxx/endpoint.h:182-191 | a dead worker gives "Worker not initialized"; otherwise a missing, null or empty address gives "Address not initialized"; success holds exactly when both checks pass; the record has the REMOTE_ADDRESS and error-handling bits, no FLAGS bit, and the address handle |
| Endpoints.WorkerAddressValidationOrder | cpp/include/ucxx/endpoint.h:182-185 | the address factory fails with the error of the first failing check, worker first, then address |
| Endpoints.WithErrorHandler | cpp/include/ucxx/endpoint.h:64-66 | the constructor sets the error mode NONE and installs the error handler with the given status variable as its argument, and changes no other member of the record |
| Endpoints.FactoryParamsWellFormed | cpp/include/ucxx/endpoint.h:144-191 | a factory's record is incomplete until the constructor adds the error handler; after that, every mask bit matches a set member; the three factories reach the peer by socket address, connection request and remote address respectively |
| Endpoints.EpParamsDeleterAsWritten | cpp/include/ucxx/endpoint.h:29-35 | the deleter as written frees the socket address exactly when the FLAGS bit is set, and never releases the record |
| Endpoints.DeleterAsWrittenFreesUnsetSockaddr | cpp/include/ucxx/endpoint.h:29-35 | for every completed connection-request record, the deleter as written frees a socket address that was never set, and leaks the record |
| Endpoints.EpParamsDeleter | cpp/include/ucxx/endpoint.h:29-35 | the intended deleter frees the socket address exactly when the SOCK_ADDR bit is set, and releases the record |
| Endpoints.DeleterFreesWhatWasSet | cpp/include/ucxx/endpoint.h:29-35 | on every well-formed record, the intended deleter frees the socket address exactly when one was set, and releases the record |
| Endpoints.DeleterOnFailedEncoding | cpp/include/ucxx/endpoint.h:144-150 | the record the hostname factory releases after a failed encoding has the SOCK_ADDR bit but no socket address, so it is not well formed, and both the deleter as written and the corrected one free the unset member |
| Endpoints.ReleaseParams | cpp/include/ucxx/endpoint.h:29-35 | releasing a record runs the deleter as written: it hands the socket address member to sockaddr_utils_free exactly when the FLAGS bit is set, and nothing else |
| Endpoints.Endpoint.constructor | cpp/include/ucxx/endpoint.h:47-49 | a default endpoint has a null handle, a status variable of its own holding OK, error handling on and no parent |
| Endpoints.Endpoint.Create | cpp/include/ucxx/endpoint.h:51-69 | without a live worker, it raises "Worker not initialized" and creates nothing; otherwise it makes one ucp_ep_create call on the worker's handle, with the record plus an error handler whose argument is a newly allocated status variable; a creation failure is raised as CreateFailed with its code and binds no handler; a success gives a fresh endpoint with the new handle, that status variable holding OK, the given flag and parent, and the native endpoint's errors bound to it; on every path the deleter as written runs on the record |
| Endpoints.Endpoint.MoveFrom | cpp/include/ucxx/endpoint.h:78-81 | the moved-to endpoint takes the source's handle and nulls the source's; its status variable is a new one holding OK, and its flag and parent are the defaults, so the handle's error handler still writes the source's status |
| Endpoints.Endpoint.MoveFromAll | cpp/include/ucxx/endpoint.h:78-81 | the corrected move carries the handle, the status variable the handle's error handler writes, the flag and the parent, and gives the source a fresh status variable; the moved endpoint has the source's close mode and worker |
| Endpoints.Endpoint.MoveAssign | cpp/include/ucxx/endpoint.h:83-88 | only the handles change: this endpoint gets the source's handle, and a distinct source is nulled; the status variable stays |
| Endpoints.Endpoint.MoveAssignAll | cpp/include/ucxx/endpoint.h:83-88 | the corrected move assignment carries the handle, status variable, flag and parent, and a distinct source keeps a null handle and a fresh status variable |
| Endpoints.ErrorCallback | cpp/include/ucxx/endpoint.h:37-42 | an error on a native endpoint is written into the status variable bound to it at creation, and is logged; every endpoint holding that handle and bound to it then closes FORCE exactly when error handling is on and the status is not OK |
| Endpoints.Endpoint.Destroy | cpp/include/ucxx/endpoint.h:90-115 | a null handle does nothing; otherwise there is exactly one close call, in the selected mode; a pending close is always freed; with a resolved worker it is first polled until it is no longer in progress, with one progress round per poll; without one, the destructor requires the request to be done at the first check, and frees it without any progress round; an immediate failure is logged and an immediate OK is not; no endpoint is created and no stream call is made |
| Endpoints.CreateEndpointFromHostname | cpp/include/ucxx/endpoint.h:128-153 | raises the hostname checks' error without creating anything; on bad_alloc the deleter frees the never-encoded socket address member; otherwise it makes the constructor's one create call from the worker with the completed record, the deleter frees the encoded address, a creation failure is raised as CreateFailed with its code and binds no handler; a success is a fresh endpoint whose fresh status variable is bound to the new native endpoint, replacing any earlier binding, and no other binding changes |
| Endpoints.CreateEndpointFromConnRequest | cpp/include/ucxx/endpoint.h:155-173 | raises the listener check's error and changes nothing; otherwise the deleter frees a socket address member that was never set; a listener without a live parent raises "Worker not initialized"; otherwise one create call on the parent worker; a creation failure is raised as CreateFailed with its code and binds no handler; a success is a fresh endpoint with the listener as parent, whose fresh status variable is bound to the new native endpoint, and no other binding changes |
| Endpoints.CreateEndpointFromWorkerAddress | cpp/include/ucxx/endpoint.h:176-194 | raises the worker or address check's error and changes nothing; otherwise one create call from the worker with the completed record; a creation failure is raised as CreateFailed with its code and binds no handler; a success is a fresh endpoint whose fresh status variable is bound to the new native endpoint, and no other binding changes; the deleter frees nothing on any path |
| Endpoints.HostnameEndpointForcedAfterError | cpp/include/ucxx/endpoint.h:37-42 | an endpoint opened by hostname with error handling on, whose connection then fails, holds the error in its own status variable, so its destructor would close with FORCE |
| Endpoints.MoveFromLosesCloseState | cpp/include/ucxx/endpoint.h:78-115 | an endpoint with error handling on is moved and its connection then fails: the error lands in the moved-from object, which holds no handle; the endpoint holding the handle is not bound to its errors, still flushes, and a pending close finds no parent to resolve a worker from |
| Endpoints.MoveFromAllKeepsCloseState | cpp/include/ucxx/endpoint.h:78-115 | with the corrected move, the moved endpoint stays bound to its handle's errors; an error reported after the move sets its close mode as the source's flag dictates, and it can close whenever the source could |
| Endpoints.MoveAssignMissesErrors | cpp/include/ucxx/endpoint.h:83-88 | after move assignment, an error on the moved handle lands in the source, which would force the close but holds no handle, while the target holding the handle still flushes |
| Endpoints.MoveAssignAllReceivesErrors | cpp/include/ucxx/endpoint.h:83-88 | with the corrected move assignment, the target is bound to its handle's errors, and an error reported afterwards sets its close mode as the source's flag dictates |
| StreamRequests.OperationName | cpp/include/ucxx/request_stream.h:76 | the name is "stream_send" exactly for a send and "stream_recv" exactly for a receive |
| StreamRequests.CallbackOperation | cpp/include/ucxx/request_stream.h:40-50 | the send callback reports as "stream_send" and the receive callback as "stream_recv", each exactly |
| StreamRequests.StreamRequestCall | cpp/include/ucxx/request_stream.h:52-70 | a send is a stream send call and a receive a stream receive call, on the given endpoint, buffer and length, with a contiguous 1-byte datatype and the request as user data; a send sets CALLBACK, DATATYPE and USER_DATA; a receive also sets FLAGS with WAITALL |
| StreamRequests.StreamCallMatchesOperation | cpp/include/ucxx/request_stream.h:40-76 | every stream call's parameters are consistent; the callback it installs reports under the operation name that populating passes to process |
| StreamRequests.AfterProcess | cpp/include/ucxx/request_stream.h:94 | processing leaves the request waiting for registration never again; a pending result awaits the callback, and an immediate one completes the request with its status |
| StreamRequests.StreamRequest.constructor | cpp/include/ucxx/request_stream.h:22-37 | captures worker handle, endpoint handle, direction, buffer and length; the request waits for its closure with nothing processed; appends exactly this request to the worker's queue; issues no native call |
| StreamRequests.StreamRequest.Populate | cpp/include/ucxx/request_stream.h:72-95 | runs only on a request still waiting for its closure; issues exactly the captured stream call, makes exactly one process call with the result, the captured worker and the operation name, and leaves the state process leaves, never the waiting one |
| StreamRequests.StreamRequest.Callback | cpp/include/ucxx/request_stream.h:40-50 | runs only after populating, and only with the callback the issued call installed; the first completion records the status under the operation name populating used; any later one changes nothing; the request ends completed |
| StreamRequests.IssuedCallsInQueueOrder | cpp/include/ucxx/request_stream.h:35-36 | draining the queue issues the requests' calls in queue order, each carrying its request as user data |
| StreamRequests.DrainIssuesEachRequestOnce | cpp/include/ucxx/request_stream.h:35-36 | draining a queue without repeats issues exactly one native call for each queued request, and none for any other |
| StreamRequests.RegisteringNewRequest | cpp/include/ucxx/request_stream.h:35-36 | registering a request that is not yet queued keeps the queue free of repeats, and adds exactly that request to the queued ones |
| StreamRequests.ProgressNotifications | cpp/include/ucxx/request_stream.h:35-36 | on a queue of requests still waiting for their closures, the drain empties the queue, issues the queue's calls in order, and populates every queued request exactly once; it changes nothing but the worker, the stream call log and the queued requests' state and process record |
| StreamRequests.StreamReceiveScenario | cpp/include/ucxx/request_stream.h:22-94 | a new receive request waits for registration and has issued nothing; one drain issues exactly one receive, with WAITALL; an immediate OK completes it |
| StreamRequests.StreamSendScenario | cpp/include/ucxx/request_stream.h:22-94 | a send whose native call is pending waits for its callback after the drain; the send callback completes it under "stream_send", and a second completion changes nothing |

## Left out

- `createRequest`, `tag_send` and `tag_recv` (endpoint.h:201-219) are not modelled. `tag_msg` is defined in transfer_tag.h, and `createRequest` in request.h; neither file is part of this model.
- `getHandle` (endpoint.h:196-199) is a plain accessor; the model reads the `handle` field.
- `createRequestStream` (request_stream.h:97-102) is only declared in this header. Its definition is not part of this model, so the model calls the constructor directly.
- Reference counting of `std::shared_ptr` is not modelled. The destructor is an explicit call to `Destroy`. `std::dynamic_pointer_cast` is replaced by the `Parent` variant.
- `UCXXRequest::process`, `UCXXRequest::callback` and `createRequestBase` live in request.h, which is not part of this model. They are modelled at their interface: the recorded call, and the state they leave.
- The worker (worker.h), listener (listener.h) and address (address.h) are modelled at their interface only. For example, `progress` only advances the round count.
- Results of native UCX calls are parameters: `ucp_ep_create`, `ucp_ep_close_nb`, the stream calls, `gethostbyname` and `sockaddr_utils_set`. Their effects are recorded in a log. `ucp_request_check_status` only reads state and is not logged.
- Output text and request tracing are not modelled. Logging is recorded as an entry with its status, and the text is dropped.
- The Python future code paths are not modelled.
- Concurrency is not modelled: the worker's progress thread, and a callback running during progress.
- `size_t` lengths are unbounded naturals. The length out-parameter of `ucp_stream_recv_nbx` is not modelled.
- When `gethostbyname` fails, the deleter runs on a record whose `field_mask` was never initialised. The model raises the error and leaves that one deleter run out. It applies the deleter at every other point where a record is released.
- When `sockaddr_utils_set` fails, the model treats the socket address member as never encoded. What a partial encoding leaves behind is not modelled.
- Deallocation is not modelled. After a move, an error can be written into a moved-from object that has already been destroyed. The model shows where the error lands, but not that the memory is gone.
- StreamRequests.StreamRequest.Callback: the rule that a later completion changes nothing belongs to `UCXXRequest::callback` in request.h, which is not part of this model. Lines 40-50 only forward the status and the operation name; the model takes the once-only completion as that function's interface.
- Exceptions are modelled as a `Failure` result carrying the error raised.
- Endpoints.Endpoint.Destroy: a pending close on an endpoint without a parent is excluded, because `getWorker` dereferences a null listener there (endpoint.h:123). A pending close whose listener parent has no worker is excluded unless the request is done at the first check; otherwise the loop dereferences a null worker (endpoint.h:108). Done at the first check means done whatever the progress count.
- Endpoints.DeleterFreesWhatWasSet: the corrected deleter frees exactly what was set only on well-formed records. The record released on the hostname factory's `bad_alloc` path (endpoint.h:149-150) has the SOCK_ADDR bit and no encoded address, so even the corrected deleter frees that member (`Endpoints.DeleterOnFailedEncoding`). The evident remedy is a value-initialised record (`new ucp_ep_params_t()`), whose zeroed member is safe to free. The model does not represent memory contents, so it does not show that.

## Findings

| source | as written | input that shows it | evidently intended | confidence | as-written member | corrected member |
|---|---|---|---|---|---|---|
| cpp/include/ucxx/endpoint.h:78-81 | the move constructor moves only the handle; status, error-handling flag and parent keep their defaults, and the native endpoint's error handler keeps writing the moved-from object's `_status` | an endpoint with error handling on is moved, and its connection then fails: the error lands in the moved-from object; the moved endpoint is flushed, not forced, and a pending close finds no parent to take a worker from | the moved endpoint keeps the state that decides how it closes, including the status its handle's errors are written to (for instance a heap-allocated status that moves with the handle) | medium, not executed | Endpoints.MoveFromLosesCloseState | Endpoints.MoveFromAllKeepsCloseState |
| cpp/include/ucxx/endpoint.h:83-88 | the move assignment moves only the handle; the target keeps its own status, flag and parent, and errors on the moved handle are written into the source | `target = std::move(source)` for two created endpoints with error handling on, then an error on the moved handle: the source holds the error but no handle, and the target flushes | the target receives its handle's errors and closes by them | medium, not executed | Endpoints.MoveAssignMissesErrors | Endpoints.MoveAssignAllReceivesErrors |
| cpp/include/ucxx/endpoint.h:32 | the deleter frees the socket address when the FLAGS bit is set | the record from a connection-request factory: FLAGS is set, but no socket address was ever encoded | free the socket address when the SOCK_ADDR bit is set | high, not executed | Endpoints.DeleterAsWrittenFreesUnsetSockaddr | Endpoints.DeleterFreesWhatWasSet |
| cpp/include/ucxx/endpoint.h:29-35 | the custom deleter never deletes the record allocated with new | any record handed to an endpoint factory | delete the record after freeing its socket address | high, not executed | Endpoints.EpParamsDeleterAsWritten | Endpoints.EpParamsDeleter |
