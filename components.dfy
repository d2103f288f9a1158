/** The collaborators of the endpoint and the stream request, at the interface
    they use: the worker (its native handle, its progress operation and its
    queue of deferred notification requests), the listener (its native handle
    and its parent) and the remote address descriptor (its handle and length).
    Their own implementations (worker.h, listener.h, address.h) are not part of
    this model. */
module Components {
  import opened Ucx

  /** UCXXWorker. `progressCount` is the number of progress rounds the
      transport has run so far; `notifications` holds, in order, the ids of the
      requests whose deferred population closure is still queued. */
  class Worker {
    const handle: Ptr
    var progressCount: nat
    var notifications: seq<nat>

    constructor (handle: Ptr)
      ensures this.handle == handle && progressCount == 0 && notifications == []
    {
      this.handle := handle;
      progressCount := 0;
      notifications := [];
    }

    /** progress(): one round of transport event processing. */
    method Progress()
      modifies this
      ensures progressCount == old(progressCount) + 1
      ensures notifications == old(notifications)
    {
      progressCount := progressCount + 1;
    }

    /** registerNotificationRequest: appends a deferred closure to the queue. */
    method RegisterNotificationRequest(id: nat)
      modifies this
      ensures notifications == old(notifications) + [id]
      ensures progressCount == old(progressCount)
    {
      notifications := notifications + [id];
    }

    /** Takes the oldest deferred closure off the queue. */
    method TakeNotificationRequest() returns (id: nat)
      requires notifications != []
      modifies this
      ensures id == old(notifications)[0]
      ensures notifications == old(notifications)[1..]
      ensures progressCount == old(progressCount)
    {
      id := notifications[0];
      notifications := notifications[1..];
    }
  }

  /** A worker that exists and has a native handle. */
  predicate Live(w: Worker?)
  {
    w != null && w.handle.Ref?
  }

  /** UCXXListener: its native handle and, from getParent(), the worker that
      owns it (null when the parent is missing or is not a worker). */
  datatype Listener = Listener(handle: Ptr, parent: Worker?)

  /** UCXXAddress: getHandle() and getLength(). */
  datatype Address = Address(handle: Ptr, length: nat)
}
