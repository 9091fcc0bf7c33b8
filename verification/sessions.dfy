/**
 The websocket server and the dispatcher together. wsHandler and cleanupConnection release the
 lock before they call the handlers, so a registration and the CreateClient it causes are two
 steps, and so are a removal and its DeleteClient; steps of different sockets fall in between.
 */
module Sessions {
  import opened Types
  import R = Registry
  import S = ServerDispatcher
  import P = ServerProgress

  /** joining and leaving are the ids whose connect or disconnect handler is still to be called. */
  datatype State = State(
    registry: R.State,
    server: S.State,
    joining: multiset<ClientId>,
    leaving: multiset<ClientId>)

  datatype Event =
    | Socket(event: R.Event)
    | Joined(id: ClientId)
    | Left(id: ClientId)
    | Serve(request: S.Event)

  function Fresh(capacity: nat, timed: bool): (s: State) {
    State(R.EMPTY, S.Fresh(capacity, timed), multiset{}, multiset{})
  }

  predicate Enabled(s: State, e: Event) {
    match e
    case Socket(r) => R.Offered(s.registry, r) && !R.Panics(s.registry, r)
    case Joined(id) => id in s.joining
    case Left(id) => id in s.leaving
    case Serve(q) => !q.Connect? && !q.Disconnect? && S.Enabled(s.server, q)
  }

  function NowJoining(s: R.State, e: R.Event): (ids: multiset<ClientId>) {
    if e.Register? && e.id !in s.connections then multiset{e.id} else multiset{}
  }

  function NowLeaving(s: R.State, e: R.Event): (ids: multiset<ClientId>)
    requires R.Offered(s, e)
  {
    if e.CleanUp? then multiset{s.sockets[e.socket].id} else multiset{}
  }

  function Step(s: State, e: Event): (r: State)
    requires Enabled(s, e)
  {
    match e
    case Socket(r) =>
      State(R.Step(s.registry, r), s.server,
            s.joining + NowJoining(s.registry, r), s.leaving + NowLeaving(s.registry, r))
    case Joined(id) => s.(server := S.Connected(s.server, id), joining := s.joining - multiset{id})
    case Left(id) => s.(server := S.Disconnected(s.server, id), leaving := s.leaving - multiset{id})
    case Serve(q) => s.(server := S.Step(s.server, q))
  }

  ghost predicate Runs(s: State, es: seq<Event>)
    decreases |es|
  {
    es == [] || (Enabled(s, es[0]) && Runs(Step(s, es[0]), es[1..]))
  }

  ghost function After(s: State, es: seq<Event>): (r: State)
    requires Runs(s, es)
    decreases |es|
  {
    if es == [] then s else After(Step(s, es[0]), es[1..])
  }

  lemma Unfold(s: State, es: seq<Event>)
    requires es != [] && Enabled(s, es[0]) && Runs(Step(s, es[0]), es[1..])
    ensures Runs(s, es) && After(s, es) == After(Step(s, es[0]), es[1..])
  {
  }

  lemma {:induction false} Extend(s: State, es: seq<Event>, e: Event)
    requires Runs(s, es) && Enabled(After(s, es), e)
    ensures Runs(s, es + [e]) && After(s, es + [e]) == Step(After(s, es), e)
    decreases |es|
  {
    if es == [] {
      assert (es + [e])[1..] == [];
    } else {
      Extend(Step(s, es[0]), es[1..], e);
      assert (es + [e])[1..] == es[1..] + [e];
    }
    Unfold(s, es + [e]);
  }

  // ----- A queue for every socket and a socket for every queue -----

  predicate Registered(s: State, id: ClientId) {
    id in s.registry.connections
  }

  predicate HasQueue(s: State, id: ClientId) {
    id in s.server.queues
  }

  /** A registered socket whose handler was called has a queue. */
  predicate Served(s: State, id: ClientId) {
    Registered(s, id) && id !in s.joining ==> HasQueue(s, id)
  }

  /** A queue without a socket is about to be deleted. */
  predicate Tidy(s: State, id: ClientId) {
    HasQueue(s, id) && !Registered(s, id) ==> id in s.leaving
  }

  /** The old connection's disconnect is reported after the new one's connect, or a connect after its disconnect. */
  predicate Crosses(s: State, e: Event, id: ClientId) {
    || (e == Left(id) && Registered(s, id) && id !in s.joining)
    || (e == Joined(id) && !Registered(s, id) && id !in s.leaving)
  }

  lemma SocketChanges(s: R.State, e: R.Event, id: ClientId)
    requires R.Offered(s, e) && !R.Panics(s, e)
    ensures id in R.Step(s, e).connections <==>
              (id in s.connections || id in NowJoining(s, e)) && id !in NowLeaving(s, e)
  {
  }

  lemma ServeKeepsQueues(s: S.State, e: S.Event, c: ClientId)
    requires S.Enabled(s, e) && !e.Connect? && !e.Disconnect?
    ensures c in S.Step(s, e).queues <==> c in s.queues
  {
    if S.Target(s, e) != Some(c) {
      S.StepIsolates(s, e, c);
    } else {
      P.TargetKeepsQueue(s, e);
    }
  }

  lemma SyncStep(s: State, e: Event, id: ClientId)
    requires Enabled(s, e) && Served(s, id) && Tidy(s, id)
    ensures Served(Step(s, e), id) && Tidy(Step(s, e), id) <==> !Crosses(s, e, id)
  {
    match e
    case Socket(r) => SocketChanges(s.registry, r, id);
    case Serve(q) => ServeKeepsQueues(s.server, q, id);
    case Joined(_) =>
    case Left(_) =>
  }

  ghost predicate AlwaysSynced(s: State, es: seq<Event>, id: ClientId)
    requires Runs(s, es)
    decreases |es|
  {
    Served(s, id) && Tidy(s, id) && (es == [] || AlwaysSynced(Step(s, es[0]), es[1..], id))
  }

  ghost predicate NeverCrosses(s: State, es: seq<Event>, id: ClientId)
    requires Runs(s, es)
    decreases |es|
  {
    es == [] || (!Crosses(s, es[0], id) && NeverCrosses(Step(s, es[0]), es[1..], id))
  }

  lemma {:induction false} SyncRun(s: State, es: seq<Event>, id: ClientId)
    requires Runs(s, es) && Served(s, id) && Tidy(s, id)
    ensures AlwaysSynced(s, es, id) <==> NeverCrosses(s, es, id)
    decreases |es|
  {
    if es != [] {
      SyncStep(s, es[0], id);
      if !Crosses(s, es[0], id) { SyncRun(Step(s, es[0]), es[1..], id); }
    }
  }

  /**
   Over every run, for every id: registered sockets have queues and queues have sockets in every
   state, up to handlers still to be called, if and only if no handler call crosses another.
   */
  lemma SyncedIff(capacity: nat, timed: bool, es: seq<Event>, id: ClientId)
    requires Runs(Fresh(capacity, timed), es)
    ensures AlwaysSynced(Fresh(capacity, timed), es, id) <==> NeverCrosses(Fresh(capacity, timed), es, id)
  {
    SyncRun(Fresh(capacity, timed), es, id);
  }

  /** A registered socket without a queue: every request for it is refused. */
  predicate Unserved(s: State, id: ClientId) {
    Registered(s, id) && id !in s.joining && !HasQueue(s, id)
  }

  /** The socket behind a registration changes only after its own cleanup. */
  lemma RegistrationStays(s: R.State, e: R.Event, id: ClientId)
    requires R.SocketsConsistent(s) && R.Offered(s, e) && !R.Panics(s, e)
    requires id in s.connections && e != R.CleanUp(s.connections[id])
    ensures id in R.Step(s, e).connections && R.Step(s, e).connections[id] == s.connections[id]
  {
    assert R.Step(s, e).connections == R.Around(s, e).connections;
    if e.CleanUp? {
      assert s.connections[s.sockets[e.socket].id] == e.socket;
    }
  }

  lemma UnservedStep(s: State, e: Event, id: ClientId)
    requires Enabled(s, e) && Unserved(s, id) && R.Inv(s.registry)
    ensures Unserved(Step(s, e), id) <==> e != Socket(R.CleanUp(s.registry.connections[id]))
    ensures !S.Accepts(s.server, id)
  {
    match e
    case Socket(r) => SocketChanges(s.registry, r, id);
    case Serve(q) => ServeKeepsQueues(s.server, q, id);
    case Joined(_) =>
    case Left(_) =>
  }

  lemma {:induction false} UnservedRun(s: State, es: seq<Event>, id: ClientId)
    requires Runs(s, es) && Unserved(s, id) && R.Inv(s.registry)
    requires Socket(R.CleanUp(s.registry.connections[id])) !in es
    ensures Unserved(After(s, es), id) && !S.Accepts(After(s, es).server, id)
    decreases |es|
  {
    if es != [] {
      assert es[0] in es;
      UnservedStep(s, es[0], id);
      if es[0].Socket? {
        RegistrationStays(s.registry, es[0].event, id);
        R.InvStep(s.registry, es[0].event);
      }
      UnservedRun(Step(s, es[0]), es[1..], id);
    }
  }

  // ----- Both crossings happen -----

  const SOCKET := R.Socket(R.PEER, 0, 0, 0, 0, true, true, R.Selecting, 0)

  /** The peer's first socket, idle. */
  predicate Idle(r: R.State) {
    && r.connections.Keys == {R.PEER} && r.connections[R.PEER] == 0
    && 0 in r.sockets && r.sockets[0] == SOCKET && r.next == 1 && !R.Locked(r)
  }

  lemma RegisteredRun() returns (es: seq<Event>)
    ensures Runs(Fresh(0, true), es)
    ensures var s := After(Fresh(0, true), es);
            && Idle(s.registry)
            && s.joining == multiset{R.PEER} && s.leaving == multiset{} && !HasQueue(s, R.PEER)
  {
    es := [];
    Extend(Fresh(0, true), es, Socket(R.Register(R.PEER)));
    es := es + [Socket(R.Register(R.PEER))];
  }

  lemma SocketExtend(s0: State, es: seq<Event>, e: R.Event)
    requires Runs(s0, es) && R.Offered(After(s0, es).registry, e) && !R.Panics(After(s0, es).registry, e)
    ensures Runs(s0, es + [Socket(e)])
    ensures var s, t := After(s0, es), After(s0, es + [Socket(e)]);
            && t.registry == R.Step(s.registry, e) && t.server == s.server
            && t.joining == s.joining + NowJoining(s.registry, e)
            && t.leaving == s.leaving + NowLeaving(s.registry, e)
  {
    Extend(s0, es, Socket(e));
  }

  lemma LossSteps(r: R.State)
    requires Idle(r)
    ensures R.Offered(r, R.ReadFails(0))
    ensures var a := R.Step(r, R.ReadFails(0));
            R.Offered(a, R.TakeForced(0)) && !R.Panics(a, R.TakeForced(0))
    ensures var b := R.Step(R.Step(r, R.ReadFails(0)), R.TakeForced(0));
            && R.Offered(b, R.CleanUp(0)) && !R.Panics(b, R.CleanUp(0)) && b.sockets[0].id == R.PEER
            && var c := R.Step(b, R.CleanUp(0)); c.connections.Keys == {} && !R.Locked(c)
  {
  }

  lemma BrokenRun(before: seq<Event>) returns (es: seq<Event>)
    requires Runs(Fresh(0, true), before) && Idle(After(Fresh(0, true), before).registry)
    ensures Runs(Fresh(0, true), es)
    ensures var s, t := After(Fresh(0, true), before), After(Fresh(0, true), es);
            && t.registry == R.Step(R.Step(s.registry, R.ReadFails(0)), R.TakeForced(0))
            && t.server == s.server && t.joining == s.joining && t.leaving == s.leaving
  {
    var s0 := Fresh(0, true);
    es := before;
    LossSteps(After(s0, es).registry);
    SocketExtend(s0, es, R.ReadFails(0));
    es := es + [Socket(R.ReadFails(0))];
    SocketExtend(s0, es, R.TakeForced(0));
    es := es + [Socket(R.TakeForced(0))];
  }

  /** A run that ends with that socket can go on with its loss. */
  lemma LostRun(before: seq<Event>) returns (es: seq<Event>)
    requires Runs(Fresh(0, true), before) && Idle(After(Fresh(0, true), before).registry)
    ensures Runs(Fresh(0, true), es)
    ensures var s, t := After(Fresh(0, true), before), After(Fresh(0, true), es);
            && t.registry.connections.Keys == {} && !R.Locked(t.registry)
            && t.server == s.server && t.joining == s.joining && t.leaving == s.leaving + multiset{R.PEER}
  {
    var s0 := Fresh(0, true);
    LossSteps(After(s0, before).registry);
    es := BrokenRun(before);
    SocketExtend(s0, es, R.CleanUp(0));
    es := es + [Socket(R.CleanUp(0))];
  }

  lemma LostAfterJoinRun() returns (es: seq<Event>)
    ensures Runs(Fresh(0, true), es)
    ensures var s := After(Fresh(0, true), es);
            && s.registry.connections.Keys == {} && !R.Locked(s.registry) && HasQueue(s, R.PEER)
            && s.joining == multiset{} && s.leaving == multiset{R.PEER}
  {
    es := RegisteredRun();
    Extend(Fresh(0, true), es, Joined(R.PEER));
    es := es + [Joined(R.PEER)];
    es := LostRun(es);
  }

  /** The peer is back before its loss was reported: its new socket ends up without a queue. */
  lemma ReconnectLosesQueue() returns (es: seq<Event>)
    ensures Runs(Fresh(0, true), es)
    ensures var s := After(Fresh(0, true), es);
            Unserved(s, R.PEER) && s.joining == multiset{} && s.leaving == multiset{}
  {
    var s0 := Fresh(0, true);
    es := LostAfterJoinRun();
    Extend(s0, es, Socket(R.Register(R.PEER)));
    es := es + [Socket(R.Register(R.PEER))];
    Extend(s0, es, Joined(R.PEER));
    es := es + [Joined(R.PEER)];
    Extend(s0, es, Left(R.PEER));
    es := es + [Left(R.PEER)];
  }

  /** The peer is gone before its arrival was reported: a queue stays behind. */
  lemma EarlyLossLeavesQueue() returns (es: seq<Event>)
    ensures Runs(Fresh(0, true), es)
    ensures var s := After(Fresh(0, true), es);
            HasQueue(s, R.PEER) && !Registered(s, R.PEER) && s.joining == multiset{} && s.leaving == multiset{}
  {
    var s0 := Fresh(0, true);
    es := RegisteredRun();
    es := LostRun(es);
    Extend(s0, es, Left(R.PEER));
    es := es + [Left(R.PEER)];
    Extend(s0, es, Joined(R.PEER));
    es := es + [Joined(R.PEER)];
  }
}
