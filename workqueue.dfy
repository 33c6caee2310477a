/**
 * An abstract model of client-go's rate-limiting work queue, reduced to what
 * the controller relies on: a pending sequence, the set of items handed out
 * by Get and not yet released by Done, the shut-down flag, and a record of
 * every call made on it. Deduplication and backoff timing are not modelled.
 */
module WorkQueue {

  /** A queue item. The queue holds `interface{}` values; the controller only adds strings. */
  datatype Item = KeyItem(key: string) | NonString

  /** One call on the queue, as recorded in its call log. */
  datatype Call =
    | AddedRateLimited(added: Item)
    | GotItem(got: Item)
    | GotShutdown
    | MarkedDone(done: Item)
    | Forgot(forgotten: Item)
    | ShutDownCalled

  class RateLimitingQueue {
    var pending: seq<Item>
    var processing: multiset<Item>
    var shuttingDown: bool
    ghost var calls: seq<Call>

    constructor ()
      ensures pending == [] && processing == multiset{} && !shuttingDown && calls == []
    {
      pending, processing, shuttingDown := [], multiset{}, false;
      calls := [];
    }

    /**
     * Adds an item after a backoff delay; the model appends it to the pending
     * sequence at once. Once the queue is shutting down the item is dropped.
     */
    method AddRateLimited(item: Item)
      modifies this
      ensures pending == if old(shuttingDown) then old(pending) else old(pending) + [item]
      ensures processing == old(processing) && shuttingDown == old(shuttingDown)
      ensures calls == old(calls) + [AddedRateLimited(item)]
    {
      if !shuttingDown {
        pending := pending + [item];
      }
      calls := calls + [AddedRateLimited(item)];
    }

    /**
     * Hands out the head of the queue, or reports shutdown once the queue is
     * shutting down and drained. On an empty queue that is still running the
     * real Get blocks; a sequential model only covers calls that return.
     */
    method Get() returns (item: Item, shutdown: bool)
      requires pending != [] || shuttingDown
      modifies this
      ensures shutdown <==> old(pending) == []
      ensures shuttingDown == old(shuttingDown)
      ensures shutdown ==> item == NonString && pending == old(pending) && processing == old(processing)
      ensures shutdown ==> calls == old(calls) + [GotShutdown]
      ensures !shutdown ==> item == old(pending)[0] && pending == old(pending)[1..]
      ensures !shutdown ==> processing == old(processing) + multiset{item}
      ensures !shutdown ==> calls == old(calls) + [GotItem(item)]
    {
      if pending == [] {
        item, shutdown := NonString, true;
        calls := calls + [GotShutdown];
      } else {
        item, shutdown := pending[0], false;
        pending := pending[1..];
        processing := processing + multiset{item};
        calls := calls + [GotItem(item)];
      }
    }

    /** Marks an item handed out by Get as finished. */
    method Done(item: Item)
      modifies this
      ensures processing == old(processing) - multiset{item}
      ensures pending == old(pending) && shuttingDown == old(shuttingDown)
      ensures calls == old(calls) + [MarkedDone(item)]
    {
      processing := processing - multiset{item};
      calls := calls + [MarkedDone(item)];
    }

    /** Clears an item's backoff history; only the call itself is recorded. */
    method Forget(item: Item)
      modifies this
      ensures pending == old(pending) && processing == old(processing) && shuttingDown == old(shuttingDown)
      ensures calls == old(calls) + [Forgot(item)]
    {
      calls := calls + [Forgot(item)];
    }

    method ShutDown()
      modifies this
      ensures shuttingDown
      ensures pending == old(pending) && processing == old(processing)
      ensures calls == old(calls) + [ShutDownCalled]
    {
      shuttingDown := true;
      calls := calls + [ShutDownCalled];
    }
  }
}
