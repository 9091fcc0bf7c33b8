/** Callbacks waiting for outcomes, one FIFO list per peer; no peer has an empty list. */
module Callbacks {
  import opened Types

  type Lists<T> = map<ClientId, seq<T>>

  function ListOf<T>(m: Lists<T>, id: ClientId): (r: seq<T>) {
    if id in m then m[id] else []
  }

  predicate NoEmptyList<T>(m: Lists<T>) {
    forall id :: id in m ==> m[id] != []
  }

  function Appended<T>(m: Lists<T>, id: ClientId, cb: T): (r: Lists<T>) {
    m[id := ListOf(m, id) + [cb]]
  }

  /** The roll back of a failed try: the last callback goes, and an emptied key with it. */
  function RolledBack<T>(m: Lists<T>, id: ClientId): (r: Lists<T>)
    requires ListOf(m, id) != []
  {
    var rest := m[id][..|m[id]| - 1];
    if rest == [] then m - {id} else m[id := rest]
  }

  function Popped<T>(m: Lists<T>, id: ClientId): (r: Lists<T>) {
    if id !in m then m
    else if |m[id]| <= 1 then m - {id}
    else m[id := m[id][1..]]
  }

  /**
   A failed TryQueue leaves the map exactly as it was, absence of the key included, if and only
   if the key did not map to an empty list.
   */
  lemma RollbackRestoresIff<T>(m: Lists<T>, id: ClientId, cb: T)
    ensures RolledBack(Appended(m, id, cb), id) == m <==> (id in m ==> m[id] != [])
  {
    var all := Appended(m, id, cb)[id];
    assert all[..|all| - 1] == ListOf(m, id);
    if id in m && m[id] == [] {
      assert id !in RolledBack(Appended(m, id, cb), id);
    } else {
      assert RolledBack(Appended(m, id, cb), id) == m;
    }
  }

  datatype Action<T> = Queued(id: ClientId, callback: T) | Refused(id: ClientId, callback: T) | Taken(id: ClientId)

  function Perform<T>(m: Lists<T>, a: Action<T>): (r: Lists<T>) {
    match a
    case Queued(id, cb) => Appended(m, id, cb)
    case Refused(id, cb) => RolledBack(Appended(m, id, cb), id)
    case Taken(id) => Popped(m, id)
  }

  function PerformAll<T>(m: Lists<T>, actions: seq<Action<T>>): (r: Lists<T>)
    decreases |actions|
  {
    if actions == [] then m else PerformAll(Perform(m, actions[0]), actions[1..])
  }

  /** A plain FIFO list for one key: refused callbacks leave no trace. */
  function NextList<T>(list: seq<T>, a: Action<T>, id: ClientId): (r: seq<T>) {
    match a
    case Queued(k, cb) => if k == id then list + [cb] else list
    case Refused(_, _) => list
    case Taken(k) => if k == id && list != [] then list[1..] else list
  }

  function Remaining<T>(list: seq<T>, actions: seq<Action<T>>, id: ClientId): (r: seq<T>)
    decreases |actions|
  {
    if actions == [] then list else Remaining(NextList(list, actions[0], id), actions[1..], id)
  }

  lemma PerformKeeps<T>(m: Lists<T>, a: Action<T>, id: ClientId)
    requires NoEmptyList(m)
    ensures NoEmptyList(Perform(m, a))
    ensures ListOf(Perform(m, a), id) == NextList(ListOf(m, id), a, id)
  {
    match a
    case Refused(k, cb) => RollbackRestoresIff(m, k, cb);
    case Taken(k) => if k in m && |m[k]| == 1 { assert m[k][1..] == []; }
    case Queued(_, _) =>
  }

  /**
   Over all sequences of operations the map is a FIFO per key without empty lists, so the
   inconsistency that Dequeue panics on cannot arise.
   */
  lemma {:induction false} QueueIsFifoPerKey<T>(m: Lists<T>, actions: seq<Action<T>>, id: ClientId)
    requires NoEmptyList(m)
    ensures NoEmptyList(PerformAll(m, actions))
    ensures ListOf(PerformAll(m, actions), id) == Remaining(ListOf(m, id), actions, id)
    decreases |actions|
  {
    if actions != [] {
      PerformKeeps(m, actions[0], id);
      QueueIsFifoPerKey(Perform(m, actions[0]), actions[1..], id);
    }
  }

  class CallbackQueue<T> {
    var callbacks: Lists<T>

    constructor ()
      ensures callbacks == map[]
    {
      callbacks := map[];
    }

    /** The try runs while the mutex is held; its result is a parameter. */
    method TryQueue(id: ClientId, tryOk: bool, callback: T)
      requires NoEmptyList(callbacks)
      modifies this
      ensures NoEmptyList(callbacks)
      ensures callbacks == if tryOk then Appended(old(callbacks), id, callback) else old(callbacks)
    {
      ghost var before := callbacks;
      callbacks := callbacks[id := (if id in callbacks then callbacks[id] else []) + [callback]];
      if !tryOk {
        var list := callbacks[id];
        RollbackRestoresIff(before, id, callback);
        callbacks := callbacks[id := list[..|list| - 1]];
        if |callbacks[id]| == 0 {
          callbacks := callbacks - {id};
        }
        assert callbacks == RolledBack(Appended(before, id, callback), id);
      }
    }

    method Dequeue(id: ClientId) returns (callback: Option<T>)
      requires NoEmptyList(callbacks)
      modifies this
      ensures NoEmptyList(callbacks)
      ensures callbacks == Popped(old(callbacks), id)
      ensures callback == if ListOf(old(callbacks), id) == [] then None else Some(old(callbacks)[id][0])
    {
      if id !in callbacks {
        return None;
      }
      var list := callbacks[id];
      callback := Some(list[0]);
      if |list| == 1 {
        callbacks := callbacks - {id};
      } else {
        callbacks := callbacks[id := list[1..]];
      }
    }

    /** The loop of the disconnect handler: every waiting callback once, in order. */
    method Drain(id: ClientId) returns (drained: seq<T>)
      requires NoEmptyList(callbacks)
      modifies this
      ensures NoEmptyList(callbacks)
      ensures drained == ListOf(old(callbacks), id)
      ensures callbacks == old(callbacks) - {id}
    {
      drained := [];
      var cb := Dequeue(id);
      while cb.Some?
        invariant NoEmptyList(callbacks)
        invariant callbacks - {id} == old(callbacks) - {id}
        invariant cb.None? ==> id !in callbacks
        invariant drained + (if cb.Some? then [cb.value] else []) + ListOf(callbacks, id)
               == ListOf(old(callbacks), id)
        decreases |ListOf(callbacks, id)|, if cb.Some? then 1 else 0
      {
        drained := drained + [cb.value];
        cb := Dequeue(id);
      }
    }
  }
}
