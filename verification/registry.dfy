/**
 The connection registry of the websocket server: which socket is registered under which id, what
 its channels hold, and what its read and write pumps do.

 connMutex is a reader-writer lock. Write and stopConnections send while they hold it for reading,
 so the lock is held exactly while such a send has not completed; registering and cleaning up need
 it for writing. StopConnection looks a socket up under the lock but sends after releasing it.
 */
module Registry {
  import opened Types

  /** Where a socket's writePump is: in its select, on its way to the lock, or gone. */
  datatype Pump = Selecting | Leaving | Exited

  /** A registered socket: the buffered values of its channels, each of capacity one. */
  datatype Socket = Socket(
    id: ClientId,
    data: nat,
    closes: nat,
    pings: nat,
    forced: nat,
    open: bool,
    reading: bool,
    pump: Pump,
    cleanups: nat)

  /** writing and sweeping are the sends under the lock, stopping those of StopConnection. */
  datatype State = State(
    connections: map<ClientId, nat>,
    sockets: map<nat, Socket>,
    next: nat,
    writing: multiset<nat>,
    sweeping: set<nat>,
    stopping: multiset<nat>)

  datatype Event =
    | Register(id: ClientId)
    | BeginWrite(id: ClientId)
    | EndWrite(socket: nat)
    | BeginSweep
    | EndSweep(socket: nat)
    | LookUp(id: ClientId)
    | SendStop(socket: nat)
    | PingArrives(socket: nat)
    | ReadFails(socket: nat)
    | TakeData(socket: nat, writeOk: bool)
    | TakePing(socket: nat, writeOk: bool)
    | TakeClose(socket: nat)
    | TakeForced(socket: nat)
    | TakeClosedQueue(socket: nat)
    | CleanUp(socket: nat)

  const EMPTY := State(map[], map[], 0, multiset{}, {}, multiset{})

  /** Some goroutine holds connMutex for reading. */
  predicate Locked(s: State) {
    s.writing != multiset{} || s.sweeping != {}
  }

  predicate Selects(s: State, k: nat) {
    k in s.sockets && s.sockets[k].pump.Selecting?
  }

  /** The socket's part in a step: a send needs room or a closed channel, a receive a value. */
  predicate Admits(w: Socket, e: Event) {
    match e
    case EndWrite(_) => !w.open || w.data == 0
    case EndSweep(_) => !w.open || w.closes == 0
    case SendStop(_) => !w.open || w.closes == 0
    case PingArrives(_) => w.reading && w.pings == 0
    case ReadFails(_) => w.reading
    case TakeData(_, _) => w.pump.Selecting? && w.data > 0
    case TakePing(_, _) => w.pump.Selecting? && w.pings > 0
    case TakeClose(_) => w.pump.Selecting? && (w.closes > 0 || !w.open)
    case TakeForced(_) => w.pump.Selecting? && w.forced > 0
    case TakeClosedQueue(_) => w.pump.Selecting? && w.data == 0 && !w.open
    case CleanUp(_) => w.pump.Leaving?
    case _ => true
  }

  predicate Local(e: Event) {
    !e.Register? && !e.BeginWrite? && !e.BeginSweep? && !e.LookUp?
  }

  predicate Offered(s: State, e: Event) {
    && (Local(e) ==> e.socket in s.sockets && Admits(s.sockets[e.socket], e))
    && match e
       case Register(_) => !Locked(s)
       case BeginSweep => s.sweeping == {}
       case EndWrite(k) => k in s.writing
       case EndSweep(k) => k in s.sweeping
       case SendStop(k) => k in s.stopping
       case CleanUp(_) => !Locked(s)
       case _ => true
  }

  /** The step would send on, or close, a closed channel. */
  predicate Panics(s: State, e: Event)
    requires Offered(s, e)
  {
    (e.EndWrite? || e.EndSweep? || e.SendStop? || e.CleanUp?) && !s.sockets[e.socket].open
  }

  function With(s: State, k: nat, w: Socket): (r: State) {
    s.(sockets := s.sockets[k := w])
  }

  /** What a step does to its own socket. */
  function Changed(w: Socket, e: Event): (r: Socket)
    requires Admits(w, e)
  {
    match e
    case EndWrite(_) => w.(data := w.data + 1)
    case EndSweep(_) => w.(closes := w.closes + 1)
    case SendStop(_) => w.(closes := w.closes + 1)
    case PingArrives(_) => w.(pings := w.pings + 1)
    case ReadFails(_) => w.(forced := w.forced + 1, reading := false)
    case TakeData(_, ok) => w.(data := w.data - 1, pump := if ok then Selecting else Leaving)
    case TakePing(_, ok) => w.(pings := w.pings - 1, pump := if ok then Selecting else Leaving)
    case TakeClose(_) => w.(closes := if w.closes > 0 then w.closes - 1 else 0, pump := Leaving)
    case TakeForced(_) => w.(forced := w.forced - 1, pump := Leaving)
    case TakeClosedQueue(_) => w.(pump := Exited)
    case CleanUp(_) => w.(open := false, pump := Exited, cleanups := w.cleanups + 1)
    case _ => w
  }

  /** What a step does to everything but the sockets that exist. */
  function Around(s: State, e: Event): (r: State)
    requires Offered(s, e)
  {
    match e
    case Register(id) =>
      if id in s.connections then s
      else
        With(s, s.next, Socket(id, 0, 0, 0, 0, true, true, Selecting, 0))
          .(connections := s.connections[id := s.next], next := s.next + 1)
    case BeginWrite(id) =>
      if id in s.connections then s.(writing := s.writing + multiset{s.connections[id]}) else s
    case EndWrite(k) => s.(writing := s.writing - multiset{k})
    case BeginSweep => s.(sweeping := s.connections.Values)
    case EndSweep(k) => s.(sweeping := s.sweeping - {k})
    case LookUp(id) =>
      if id in s.connections then s.(stopping := s.stopping + multiset{s.connections[id]}) else s
    case SendStop(k) => s.(stopping := s.stopping - multiset{k})
    case CleanUp(k) => s.(connections := s.connections - {s.sockets[k].id})
    case _ => s
  }

  function Step(s: State, e: Event): (r: State)
    requires Offered(s, e) && !Panics(s, e)
  {
    if Local(e) then With(Around(s, e), e.socket, Changed(s.sockets[e.socket], e)) else Around(s, e)
  }

  ghost predicate Runs(s: State, es: seq<Event>)
    decreases |es|
  {
    es == [] || (Offered(s, es[0]) && !Panics(s, es[0]) && Runs(Step(s, es[0]), es[1..]))
  }

  ghost function After(s: State, es: seq<Event>): (r: State)
    requires Runs(s, es)
    decreases |es|
  {
    if es == [] then s else After(Step(s, es[0]), es[1..])
  }

  lemma {:induction false} Extend(s: State, es: seq<Event>, e: Event)
    requires Runs(s, es) && Offered(After(s, es), e) && !Panics(After(s, es), e)
    ensures Runs(s, es + [e]) && After(s, es + [e]) == Step(After(s, es), e)
    decreases |es|
  {
    if es == [] {
      assert [e][1..] == [] && es + [e] == [e];
    } else {
      Extend(Step(s, es[0]), es[1..], e);
      assert (es + [e])[1..] == es[1..] + [e];
    }
  }

  // ----- Safety -----

  /** A registered id maps to its own socket, which is open and has a living write pump. */
  ghost predicate RegisteredOpen(s: State) {
    forall id :: id in s.connections ==>
      && s.connections[id] in s.sockets
      && s.sockets[s.connections[id]].id == id
      && s.sockets[s.connections[id]].open
  }

  /** Its channels are open exactly until its pump is gone, which is after one cleanup. */
  predicate Consistent(w: Socket) {
    && (w.open <==> !w.pump.Exited?)
    && w.cleanups == (if w.open then 0 else 1)
    && w.data <= 1 && w.closes <= 1
  }

  ghost predicate SocketsConsistent(s: State) {
    forall k :: k in s.sockets ==>
      && k < s.next && Consistent(s.sockets[k])
      && (s.sockets[k].open ==> s.sockets[k].id in s.connections && s.connections[s.sockets[k].id] == k)
  }

  /** Sends under the lock are sends on open channels: the lock keeps cleanups away. */
  ghost predicate SendersSafe(s: State) {
    && (forall k :: k in s.writing || k in s.sweeping ==> k in s.sockets && s.sockets[k].open)
    && (forall k :: k in s.stopping ==> k in s.sockets)
  }

  ghost predicate Inv(s: State) {
    RegisteredOpen(s) && SocketsConsistent(s) && SendersSafe(s)
  }

  lemma ClosedQueueNeverSeen(s: State, k: nat)
    requires SocketsConsistent(s)
    ensures !Offered(s, TakeClosedQueue(k))
  {
  }

  lemma ChangedKeeps(w: Socket, e: Event)
    requires Consistent(w) && Admits(w, e) && !e.CleanUp? && !e.TakeClosedQueue?
    requires e.EndWrite? || e.EndSweep? || e.SendStop? ==> w.open
    ensures Consistent(Changed(w, e)) && Changed(w, e).id == w.id && Changed(w, e).open == w.open
  {
  }

  /** A change inside one open or closed socket disturbs nothing. */
  lemma WithKeeps(s: State, k: nat, w: Socket)
    requires Inv(s) && k in s.sockets
    requires Consistent(w) && w.id == s.sockets[k].id && w.open == s.sockets[k].open
    ensures Inv(With(s, k, w))
  {
  }

  lemma RegisterKeeps(s: State, id: ClientId)
    requires Inv(s) && !Locked(s)
    ensures Inv(Around(s, Register(id)))
  {
    var t := Around(s, Register(id));
    assert RegisteredOpen(t) by {
      assert s.next !in s.sockets;
    }
    assert SocketsConsistent(t);
    assert SendersSafe(t);
  }

  lemma SendersKeep(s: State, e: Event)
    requires Inv(s) && Offered(s, e) && !e.CleanUp? && !e.Register?
    ensures SendersSafe(Around(s, e))
  {
    if e.BeginSweep? {
      forall k | k in s.connections.Values ensures k in s.sockets && s.sockets[k].open {
        var id :| id in s.connections && s.connections[id] == k;
      }
    }
  }

  /** Only registrations and cleanups change the registry itself. */
  lemma AroundFrame(s: State, e: Event)
    requires Offered(s, e) && !e.Register?
    ensures Around(s, e).sockets == s.sockets && Around(s, e).next == s.next
    ensures !e.CleanUp? ==> Around(s, e).connections == s.connections
  {
    match e
    case BeginWrite(_) =>
    case EndWrite(_) =>
    case BeginSweep =>
    case EndSweep(_) =>
    case LookUp(_) =>
    case SendStop(_) =>
    case CleanUp(_) =>
    case _ =>
  }

  lemma FrameKeeps(s: State, t: State)
    requires RegisteredOpen(s) && SocketsConsistent(s)
    requires t.connections == s.connections && t.sockets == s.sockets && t.next == s.next
    ensures RegisteredOpen(t) && SocketsConsistent(t)
  {
  }

  lemma AroundKeeps(s: State, e: Event)
    requires Inv(s) && Offered(s, e) && !e.CleanUp?
    ensures Inv(Around(s, e))
  {
    if e.Register? {
      RegisterKeeps(s, e.id);
    } else {
      AroundFrame(s, e);
      FrameKeeps(s, Around(s, e));
      SendersKeep(s, e);
    }
  }

  lemma CleanUpKeeps(s: State, k: nat)
    requires Inv(s) && Offered(s, CleanUp(k)) && !Panics(s, CleanUp(k))
    ensures Inv(Step(s, CleanUp(k)))
  {
    var t := Step(s, CleanUp(k));
    forall id | id in t.connections
      ensures t.connections[id] in t.sockets && t.sockets[t.connections[id]].id == id
           && t.sockets[t.connections[id]].open
    {
      assert id in s.connections && id != s.sockets[k].id;
    }
  }

  lemma InvStep(s: State, e: Event)
    requires Inv(s) && Offered(s, e) && !Panics(s, e)
    ensures Inv(Step(s, e))
  {
    if e.CleanUp? {
      CleanUpKeeps(s, e.socket);
    } else {
      AroundKeeps(s, e);
      if Local(e) {
        ClosedQueueNeverSeen(s, e.socket);
        ChangedKeeps(s.sockets[e.socket], e);
        WithKeeps(Around(s, e), e.socket, Changed(s.sockets[e.socket], e));
      }
    }
  }

  lemma {:induction false} InvRun(s: State, es: seq<Event>)
    requires Inv(s) && Runs(s, es)
    ensures Inv(After(s, es))
    decreases |es|
  {
    if es != [] {
      InvStep(s, es[0]);
      InvRun(Step(s, es[0]), es[1..]);
    }
  }

  /**
   In every run: each registered id has its own open socket; no socket is cleaned up twice; the
   write pump never finds its queue closed; and neither Write nor stopConnections nor a cleanup
   touches a closed channel. Only the send of a StopConnection can, and exactly if its socket was
   cleaned up after the look-up.
   */
  lemma RegistryIsSafe(es: seq<Event>, e: Event)
    requires Runs(EMPTY, es) && Offered(After(EMPTY, es), e)
    ensures var s := After(EMPTY, es);
            && RegisteredOpen(s)
            && (forall k :: k in s.sockets ==> s.sockets[k].cleanups <= 1)
            && !e.TakeClosedQueue?
            && (Panics(s, e) <==> e.SendStop? && s.sockets[e.socket].cleanups == 1)
  {
    InvRun(EMPTY, es);
  }

  /** A cleanup removes its own registration and nobody else's. */
  lemma CleanupRemovesOwnOnly(es: seq<Event>, k: nat)
    requires Runs(EMPTY, es) && Offered(After(EMPTY, es), CleanUp(k))
    ensures var s := After(EMPTY, es); var id := s.sockets[k].id;
            && id in s.connections && s.connections[id] == k
            && Around(s, CleanUp(k)).connections == s.connections - {id}
  {
    InvRun(EMPTY, es);
  }

  /** Leaves its select: on a failed write or pong, a close message or a forced close. */
  predicate Leaves(e: Event) {
    (e.TakeData? && !e.writeOk) || (e.TakePing? && !e.writeOk) || e.TakeClose? || e.TakeForced?
  }

  lemma SocketExits(w: Socket, e: Event)
    requires Consistent(w) && Admits(w, e)
    ensures var u := Changed(w, e);
            && (w.pump.Selecting? && !u.pump.Selecting? <==> Leaves(e))
            && (w.pump.Leaving? && !u.pump.Leaving? <==> e.CleanUp?)
            && u.cleanups == w.cleanups + (if e.CleanUp? then 1 else 0)
  {
  }

  lemma OtherSocketsStay(s: State, e: Event, k: nat)
    requires SocketsConsistent(s) && Offered(s, e) && !Panics(s, e) && k in s.sockets
    requires Local(e) ==> e.socket != k
    ensures k in Step(s, e).sockets && Step(s, e).sockets[k] == s.sockets[k]
  {
  }

  /** Every exit of a write pump, and nothing else, leads to one cleanup and ends in it. */
  lemma ExitsCleanUp(s: State, e: Event, k: nat)
    requires Inv(s) && Offered(s, e) && !Panics(s, e) && k in s.sockets
    ensures k in Step(s, e).sockets
    ensures var w, u := s.sockets[k], Step(s, e).sockets[k];
            && (w.pump.Selecting? && !u.pump.Selecting? <==> Leaves(e) && e.socket == k)
            && (w.pump.Leaving? && !u.pump.Leaving? <==> e == CleanUp(k))
            && u.cleanups == w.cleanups + (if e == CleanUp(k) then 1 else 0)
  {
    if Local(e) && e.socket == k {
      SocketExits(s.sockets[k], e);
    } else {
      OtherSocketsStay(s, e, k);
    }
  }

  // ----- Nothing lost, nothing twice -----

  /** The channels of a socket. */
  datatype Port = Data | Stops | Pings | Losses

  function Buffered(w: Socket, p: Port): (n: nat) {
    match p
    case Data => w.data
    case Stops => w.closes
    case Pings => w.pings
    case Losses => w.forced
  }

  /** One more for a completed send on the socket's channel, one less for a receive. */
  function Change(e: Event, k: nat, p: Port): (d: int) {
    if !Local(e) || e.socket != k then 0
    else match p
      case Data => if e.EndWrite? then 1 else if e.TakeData? then -1 else 0
      case Stops => if e.EndSweep? || e.SendStop? then 1 else if e.TakeClose? then -1 else 0
      case Pings => if e.PingArrives? then 1 else if e.TakePing? then -1 else 0
      case Losses => if e.ReadFails? then 1 else if e.TakeForced? then -1 else 0
  }

  function Changes(es: seq<Event>, k: nat, p: Port): (d: int) {
    if es == [] then 0 else Change(es[0], k, p) + Changes(es[1..], k, p)
  }

  lemma SocketChange(w: Socket, e: Event, p: Port)
    requires Consistent(w) && Admits(w, e) && Local(e)
    ensures Buffered(Changed(w, e), p) == Buffered(w, p) + Change(e, e.socket, p)
  {
  }

  lemma ChangeStep(s: State, e: Event, k: nat, p: Port)
    requires SocketsConsistent(s) && Offered(s, e) && !Panics(s, e) && k in s.sockets
    ensures k in Step(s, e).sockets
    ensures Buffered(Step(s, e).sockets[k], p) == Buffered(s.sockets[k], p) + Change(e, k, p)
  {
    if Local(e) && e.socket == k {
      SocketChange(s.sockets[k], e, p);
    } else {
      OtherSocketsStay(s, e, k);
    }
  }

  /** Over every run and for every channel of every socket: buffered == sent - received. */
  lemma {:induction false} ChannelsConserve(s: State, es: seq<Event>, k: nat, p: Port)
    requires Inv(s) && Runs(s, es) && k in s.sockets
    ensures k in After(s, es).sockets
    ensures Buffered(After(s, es).sockets[k], p) == Buffered(s.sockets[k], p) + Changes(es, k, p)
    decreases |es|
  {
    if es != [] {
      ChangeStep(s, es[0], k, p);
      InvStep(s, es[0]);
      ChannelsConserve(Step(s, es[0]), es[1..], k, p);
    }
  }

  const PEER := ClientId("A")

  /** One peer, just registered. */
  lemma RegisteredRun() returns (es: seq<Event>)
    ensures Runs(EMPTY, es)
    ensures var s := After(EMPTY, es);
            && s.connections.Keys == {PEER} && s.connections[PEER] == 0 && s.sockets.Keys == {0}
            && s.sockets[0] == Socket(PEER, 0, 0, 0, 0, true, true, Selecting, 0)
            && !Locked(s) && s.stopping == multiset{}
  {
    es := [];
    Extend(EMPTY, es, Register(PEER));
    es := es + [Register(PEER)];
  }

  /** Between the two halves of StopConnection the socket can go away. */
  lemma StopConnectionCanPanic() returns (es: seq<Event>)
    ensures Runs(EMPTY, es)
    ensures Offered(After(EMPTY, es), SendStop(0)) && Panics(After(EMPTY, es), SendStop(0))
  {
    es := RegisteredRun();
    Extend(EMPTY, es, LookUp(PEER));
    es := es + [LookUp(PEER)];
    Extend(EMPTY, es, ReadFails(0));
    es := es + [ReadFails(0)];
    Extend(EMPTY, es, TakeForced(0));
    es := es + [TakeForced(0)];
    Extend(EMPTY, es, CleanUp(0));
    es := es + [CleanUp(0)];
  }

  // ----- Is the lock ever free again? -----

  /** The pump of k is waiting for the lock, and a holder is waiting for that pump. */
  predicate Doomed(s: State, k: nat) {
    && k in s.sockets && s.sockets[k].pump.Leaving?
    && ((k in s.writing && s.writing[k] + s.sockets[k].data > 1)
        || (k in s.sweeping && s.sockets[k].closes > 0))
  }

  /** Nobody takes from the channels of a leaving pump. */
  lemma LeavingFills(w: Socket, e: Event)
    requires Admits(w, e) && w.pump.Leaving? && !e.CleanUp?
    ensures var u := Changed(w, e);
            && u.pump.Leaving?
            && u.data == w.data + (if e.EndWrite? then 1 else 0)
            && u.closes == w.closes + (if e.EndSweep? || e.SendStop? then 1 else 0)
  {
  }

  /** Holders stay until their own sends complete. */
  lemma HoldersStay(s: State, e: Event, k: nat)
    requires Offered(s, e)
    ensures Around(s, e).writing[k] + (if e == EndWrite(k) then 1 else 0) >= s.writing[k]
    ensures k in s.sweeping && e != EndSweep(k) ==> k in Around(s, e).sweeping
  {
  }

  lemma DoomedStep(s: State, e: Event, k: nat)
    requires Doomed(s, k) && Inv(s) && Offered(s, e) && !Panics(s, e)
    ensures Doomed(Step(s, e), k) && Step(s, e).connections == s.connections
  {
    assert Locked(s);
    AroundFrame(s, e);
    HoldersStay(s, e, k);
    if Local(e) && e.socket == k {
      LeavingFills(s.sockets[k], e);
    } else {
      OtherSocketsStay(s, e, k);
    }
  }

  lemma {:induction false} DoomedRun(s: State, es: seq<Event>, k: nat)
    requires Inv(s) && Doomed(s, k) && Runs(s, es)
    ensures Doomed(After(s, es), k) && After(s, es).connections == s.connections
    decreases |es|
  {
    if es != [] {
      DoomedStep(s, es[0], k);
      InvStep(s, es[0]);
      DoomedRun(Step(s, es[0]), es[1..], k);
    }
  }

  ghost predicate NoneDoomed(s: State) {
    forall k :: k in s.sockets ==> !Doomed(s, k)
  }

  /** A step that lets a holder of the lock get on. */
  predicate Helps(s: State, e: Event) {
    && Offered(s, e)
    && match e
       case EndWrite(_) => true
       case EndSweep(_) => true
       case TakeData(_, ok) => ok
       case TakeClose(k) => s.writing == multiset{} && s.sockets[k].closes == 1
       case _ => false
  }

  lemma HelpKeeps(s: State, e: Event)
    requires Inv(s) && NoneDoomed(s) && Helps(s, e)
    ensures !Panics(s, e) && NoneDoomed(Step(s, e))
  {
    var t := Step(s, e);
    forall k | k in t.sockets ensures !Doomed(t, k) {
      assert k in s.sockets;
      if k != e.socket { OtherSocketsStay(s, e, k); }
    }
  }

  lemma OneStep(s: State, e: Event)
    requires Offered(s, e) && !Panics(s, e)
    ensures Runs(s, [e]) && After(s, [e]) == Step(s, e)
  {
    assert [e][1..] == [];
  }

  lemma Prepend(s: State, e: Event, es: seq<Event>)
    requires Offered(s, e) && !Panics(s, e) && Runs(Step(s, e), es)
    ensures Runs(s, [e] + es) && After(s, [e] + es) == After(Step(s, e), es)
  {
    assert ([e] + es)[0] == e && ([e] + es)[1..] == es;
  }

  /** One holder finishes, after its pump has made room if need be. */
  lemma FinishWrite(s: State, k: nat) returns (t: State, es: seq<Event>)
    requires Inv(s) && NoneDoomed(s) && k in s.writing
    ensures Runs(s, es) && After(s, es) == t
    ensures Inv(t) && NoneDoomed(t) && t.writing == s.writing - multiset{k} && t.sweeping == s.sweeping
  {
    t, es := s, [];
    var e := TakeData(k, true);
    if s.sockets[k].data > 0 {
      assert s.writing[k] >= 1 && !Doomed(s, k);
      HelpKeeps(s, e);
      InvStep(s, e);
      t := Step(s, e);
    }
    assert Helps(t, EndWrite(k));
    HelpKeeps(t, EndWrite(k));
    InvStep(t, EndWrite(k));
    OneStep(t, EndWrite(k));
    es := [EndWrite(k)];
    if s.sockets[k].data > 0 {
      Prepend(s, e, es);
      es := [e] + es;
    }
    t := Step(t, EndWrite(k));
  }

  lemma FinishSweep(s: State, k: nat) returns (t: State, es: seq<Event>)
    requires Inv(s) && NoneDoomed(s) && s.writing == multiset{} && k in s.sweeping
    ensures Runs(s, es) && After(s, es) == t
    ensures Inv(t) && NoneDoomed(t) && t.writing == multiset{} && t.sweeping == s.sweeping - {k}
  {
    t, es := s, [];
    var e := TakeClose(k);
    if s.sockets[k].closes > 0 {
      assert !Doomed(s, k);
      HelpKeeps(s, e);
      InvStep(s, e);
      t := Step(s, e);
    }
    assert Helps(t, EndSweep(k));
    HelpKeeps(t, EndSweep(k));
    InvStep(t, EndSweep(k));
    OneStep(t, EndSweep(k));
    es := [EndSweep(k)];
    if s.sockets[k].closes > 0 {
      Prepend(s, e, es);
      es := [e] + es;
    }
    t := Step(t, EndSweep(k));
  }

  lemma {:induction false} Join(s: State, a: seq<Event>, b: seq<Event>)
    requires Runs(s, a) && Runs(After(s, a), b)
    ensures Runs(s, a + b) && After(s, a + b) == After(After(s, a), b)
    decreases |a|
  {
    if a == [] {
      assert a + b == b;
    } else {
      Join(Step(s, a[0]), a[1..], b);
      assert (a + b)[0] == a[0] && (a + b)[1..] == a[1..] + b;
    }
  }

  lemma {:induction false} Unlock(s: State) returns (es: seq<Event>)
    requires Inv(s) && NoneDoomed(s)
    ensures Runs(s, es) && !Locked(After(s, es))
    decreases |s.writing|, |s.sweeping|
  {
    es := [];
    if Locked(s) {
      var t;
      if s.writing != multiset{} {
        var k :| k in s.writing;
        t, es := FinishWrite(s, k);
      } else {
        var k :| k in s.sweeping;
        t, es := FinishSweep(s, k);
      }
      var rest := Unlock(t);
      Join(s, es, rest);
      es := es + rest;
    }
  }

  /**
   In every reachable state the lock can become free again if and only if no pump is waiting for
   it while holders wait for that pump. Once one does, no socket is ever registered or removed.
   */
  lemma LockFreesIff(es: seq<Event>)
    requires Runs(EMPTY, es)
    ensures var s := After(EMPTY, es);
            && ((exists more :: Runs(s, more) && !Locked(After(s, more))) <==> NoneDoomed(s))
            && (!NoneDoomed(s) ==> forall more :: Runs(s, more) ==> After(s, more).connections == s.connections)
  {
    var s := After(EMPTY, es);
    InvRun(EMPTY, es);
    if NoneDoomed(s) {
      var more := Unlock(s);
    } else {
      var k :| k in s.sockets && Doomed(s, k);
      forall more | Runs(s, more)
        ensures Locked(After(s, more)) && After(s, more).connections == s.connections
      {
        DoomedRun(s, more, k);
      }
    }
  }

  lemma TwoWritersRun() returns (es: seq<Event>)
    ensures Runs(EMPTY, es)
    ensures var s := After(EMPTY, es);
            && s.connections.Keys == {PEER} && s.connections[PEER] == 0 && 0 in s.sockets
            && s.sockets[0] == Socket(PEER, 0, 0, 0, 0, true, true, Selecting, 0)
            && s.writing == multiset{0, 0}
  {
    es := RegisteredRun();
    Extend(EMPTY, es, BeginWrite(PEER));
    es := es + [BeginWrite(PEER)];
    assert After(EMPTY, es).writing == multiset{0};
    Extend(EMPTY, es, BeginWrite(PEER));
    es := es + [BeginWrite(PEER)];
  }

  /** Two writers and a lost connection are enough: one fills the buffer, the other waits for room. */
  lemma WriteCanDeadlock() returns (es: seq<Event>)
    ensures Runs(EMPTY, es) && Doomed(After(EMPTY, es), 0)
  {
    es := TwoWritersRun();
    Extend(EMPTY, es, EndWrite(0));
    es := es + [EndWrite(0)];
    assert After(EMPTY, es).sockets[0].data == 1 && 0 in After(EMPTY, es).writing;
    Extend(EMPTY, es, ReadFails(0));
    es := es + [ReadFails(0)];
    Extend(EMPTY, es, TakeForced(0));
    es := es + [TakeForced(0)];
  }

  // ----- The registry as an object -----

  lemma SweepStep(s: State)
    requires Inv(s) && Offered(s, BeginSweep)
    ensures Step(s, BeginSweep) == s.(sweeping := s.connections.Values) && Inv(Step(s, BeginSweep))
    ensures forall k :: k in s.connections.Values ==> k in s.sockets && s.sockets[k].open
  {
    InvStep(s, BeginSweep);
  }

  lemma CleanUpStep(s: State, k: nat)
    requires Inv(s) && Offered(s, CleanUp(k))
    ensures Inv(Step(s, CleanUp(k)))
    ensures var w := s.sockets[k];
            Step(s, CleanUp(k)) == s.(connections := s.connections - {w.id},
              sockets := s.sockets[k := w.(open := false, pump := Exited, cleanups := w.cleanups + 1)])
  {
    CleanUpKeeps(s, k);
  }

  lemma RegisterStep(s: State, id: ClientId)
    requires Inv(s) && Offered(s, Register(id))
    ensures Inv(Step(s, Register(id)))
    ensures id in s.connections ==> Step(s, Register(id)) == s
    ensures id !in s.connections ==>
              && s.next !in s.sockets
              && Step(s, Register(id)) == s.(connections := s.connections[id := s.next],
                   sockets := s.sockets[s.next := Socket(id, 0, 0, 0, 0, true, true, Selecting, 0)],
                   next := s.next + 1)
  {
    RegisterKeeps(s, id);
  }

  class WsServer {
    var connections: map<ClientId, nat>
    var sockets: map<nat, Socket>
    var next: nat
    ghost var writing: multiset<nat>
    ghost var sweeping: set<nat>
    ghost var stopping: multiset<nat>

    constructor ()
      ensures Abs() == EMPTY
    {
      connections, sockets, next := map[], map[], 0;
      writing, sweeping, stopping := multiset{}, {}, multiset{};
    }

    ghost function Abs(): (s: State)
      reads this
    {
      State(connections, sockets, next, writing, sweeping, stopping)
    }

    /** The registration part of wsHandler: a second connection with the same id is refused. */
    method RegisterSocket(id: ClientId) returns (ok: bool)
      requires Inv(Abs()) && Offered(Abs(), Register(id))
      modifies this
      ensures Inv(Abs()) && Abs() == Step(old(Abs()), Register(id))
      ensures ok == (id !in old(connections))
      ensures ok ==> connections[id] !in old(sockets)
    {
      ghost var t := Step(Abs(), Register(id));
      RegisterStep(Abs(), id);
      if id in connections {
        return false;
      }
      connections := connections[id := next];
      sockets := sockets[next := Socket(id, 0, 0, 0, 0, true, true, Selecting, 0)];
      next := next + 1;
      assert Abs() == t;
      return true;
    }

    /** The look-up of Write: the socket to queue data on, never one whose queue was closed. */
    method WriteTo(id: ClientId) returns (socket: Option<nat>)
      requires Inv(Abs())
      modifies this`writing
      ensures Inv(Abs()) && Abs() == Step(old(Abs()), BeginWrite(id))
      ensures socket.None? <==> id !in connections
      ensures socket.Some? ==> socket.value in sockets && sockets[socket.value].open
                               && sockets[socket.value].id == id
    {
      InvStep(Abs(), BeginWrite(id));
      if id !in connections {
        return None;
      }
      writing := writing + multiset{connections[id]};
      return Some(connections[id]);
    }

    /** The loop of stopConnections: every registered socket is to get one close message. */
    method StopConnections() returns (stopped: set<nat>)
      requires Inv(Abs()) && Offered(Abs(), BeginSweep)
      modifies this`sweeping
      ensures Inv(Abs()) && Abs() == Step(old(Abs()), BeginSweep)
      ensures stopped == sweeping == connections.Values
      ensures forall k :: k in stopped ==> k in sockets && sockets[k].open
    {
      SweepStep(Abs());
      stopped := ReachAll();
      sweeping := stopped;
    }

    method ReachAll() returns (stopped: set<nat>)
      ensures stopped == connections.Values
    {
      var todo := connections.Keys;
      stopped := {};
      while todo != {}
        invariant todo <= connections.Keys
        invariant stopped == set id | id in connections && id !in todo :: connections[id]
        decreases |todo|
      {
        var id :| id in todo;
        todo := todo - {id};
        stopped := stopped + {connections[id]};
      }
      assert stopped == connections.Values;
    }

    method CleanupConnection(k: nat)
      requires Inv(Abs()) && Offered(Abs(), CleanUp(k))
      modifies this
      ensures Inv(Abs()) && Abs() == Step(old(Abs()), CleanUp(k))
    {
      ghost var t := Step(Abs(), CleanUp(k));
      CleanUpStep(Abs(), k);
      var ws := sockets[k];
      connections := connections - {ws.id};
      sockets := sockets[k := ws.(open := false, pump := Exited, cleanups := ws.cleanups + 1)];
      assert Abs() == t;
    }
  }
}
