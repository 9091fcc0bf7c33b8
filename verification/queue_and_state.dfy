/** The bounded FIFO behind a dispatcher; capacity 0 means unbounded. */
module Queues {
  import opened Types

  class FIFOClientQueue {
    var elements: seq<Bundle>
    const capacity: nat

    constructor (capacity: nat)
      ensures elements == [] && this.capacity == capacity
    {
      this.capacity := capacity;
      elements := [];
    }

    predicate Full()
      reads this
    {
      |elements| >= capacity && capacity > 0
    }

    method Init()
      modifies this
      ensures elements == []
    {
      elements := [];
    }

    /** A full queue refuses the element and keeps its contents. */
    method Push(element: Bundle) returns (ok: bool)
      modifies this
      ensures ok <==> capacity == 0 || |old(elements)| < capacity
      ensures elements == if ok then old(elements) + [element] else old(elements)
      ensures old(0 < capacity && |elements| <= capacity) ==> |elements| <= capacity
    {
      if |elements| >= capacity && capacity > 0 {
        return false;
      }
      elements := elements + [element];
      return true;
    }

    method Peek() returns (first: Option<Bundle>)
      ensures first == if elements == [] then None else Some(elements[0])
    {
      if |elements| == 0 {
        return None;
      }
      return Some(elements[0]);
    }

    method Pop() returns (first: Option<Bundle>)
      modifies this
      ensures first == if old(elements) == [] then None else Some(old(elements)[0])
      ensures old(elements) == (if first.Some? then [first.value] else []) + elements
    {
      if |elements| == 0 {
        return None;
      }
      var result := elements[0];
      elements := elements[1..];
      return Some(result);
    }
  }
}

/** The single pending request of one peer. */
module PendingState {
  import opened Types

  function AddPending(slot: Option<Bundle>, b: Bundle): (r: Option<Bundle>) {
    if b.id != "" && slot.None? then Some(b) else slot
  }

  function DeletePending(slot: Option<Bundle>, id: string): (r: Option<Bundle>) {
    if slot.Some? && slot.value.id == id then None else slot
  }

  /** The slot is free when requestID is empty; pendingRequest is then a leftover. */
  class ClientState {
    var requestID: string
    var pendingRequest: Request

    constructor (leftover: Request)
      ensures Slot() == None
    {
      requestID := "";
      pendingRequest := leftover;
    }

    function Slot(): (r: Option<Bundle>)
      reads this
      ensures r.Some? ==> r.value.id != ""
    {
      if requestID == "" then None else Some(Bundle(requestID, pendingRequest))
    }

    /** A second add is ignored until the first was deleted. */
    method AddPendingRequest(id: string, req: Request)
      modifies this
      ensures Slot() == AddPending(old(Slot()), Bundle(id, req))
    {
      if id != "" && requestID == "" {
        requestID := id;
        pendingRequest := req;
      }
    }

    /** Only the id in the slot is found; a free slot answers the empty id with the leftover. */
    method GetPendingRequest(id: string) returns (req: Option<Request>)
      ensures id != "" ==> (req.Some? <==> Slot().Some? && Slot().value.id == id)
      ensures id != "" && req.Some? ==> Slot() == Some(Bundle(id, req.value))
      ensures id == "" ==> req == if Slot().None? then Some(pendingRequest) else None
    {
      if requestID != id {
        return None;
      }
      return Some(pendingRequest);
    }

    method DeletePendingRequest(id: string)
      modifies this
      ensures Slot() == DeletePending(old(Slot()), id)
    {
      if requestID != id {
        return;
      }
      requestID := "";
    }

    method ClearPendingRequests()
      modifies this
      ensures Slot() == None
    {
      requestID := "";
    }

    method HasPendingRequest() returns (has: bool)
      ensures has == Slot().Some?
    {
      return requestID != "";
    }
  }
}
