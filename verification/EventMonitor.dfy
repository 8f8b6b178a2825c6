/** The page's script: the global variable `stompClient` and the two functions that use it. */
module EventMonitor {
  import opened Text
  import opened Page
  import opened PageHandlers
  import opened StompOverSockJs
  import opened Protocols
  import C = Connection
  import Safety = ConnectionSafety
  import S = SockJs

  class Script {
    const env: Env
    var stompClient: Client?
    var timers: nat             // setTimeout(connect, 10000) still to fire
    var clients: seq<Client>    // all ever made; their sockets live on
    ghost var world: World

    /** The clients are different, each over a socket of its own that the page's handler
        serves; the variable holds the last one. */
    ghost predicate Linked()
      reads this
    {
      && (stompClient == if clients == [] then null else clients[|clients| - 1])
      && (forall i :: 0 <= i < |clients| ==>
            clients[i].ws.config == env.config && clients[i].ws.handler == HandlerOf(env))
      && (forall i, j :: 0 <= i < j < |clients| ==> clients[i] != clients[j] && clients[i].ws != clients[j].ws)
    }

    ghost predicate Sound()
      reads this, clients, set c <- clients :: c.ws
    {
      forall i :: 0 <= i < |clients| ==> clients[i].Valid()
    }

    ghost predicate Counted()
      reads this
    {
      world.timers == timers && |world.sockets| == |clients|
    }

    /** What `world` says of its sockets is up to date but for one; -1 for none. */
    ghost predicate ShownBut(k: int)
      requires |world.sockets| <= |clients|
      reads this, clients, set c <- clients :: c.ws
    {
      forall i :: 0 <= i < |world.sockets| && i != k ==>
        world.sockets[i] == Socket(clients[i].ws.Abstract(), clients[i].onclose)
    }

    ghost predicate Valid()
      reads this, clients, set c <- clients :: c.ws
    {
      Linked() && Sound() && Counted() && ShownBut(-1)
    }

    constructor (env: Env)
      ensures Valid() && world == EMPTY && this.env == env
    {
      this.env, stompClient, timers, clients, world := env, null, 0, [], EMPTY;
    }

    method Connect(at: int, enabled: set<Protocol>) returns (thrown: bool)
      requires Valid()
      modifies this, if stompClient == null then {} else {stompClient, stompClient.ws}
      ensures Valid()
      ensures (world, thrown) == Page.Connect(old(world), at, enabled)
      ensures !thrown ==> stompClient != null && fresh(stompClient) && fresh(stompClient.ws)
    {
      thrown := false;
      if stompClient != null {
        assert world.sockets[|clients| - 1].conn == stompClient.ws.Abstract();
        thrown := DisconnectCurrent(enabled);
        if thrown {
          return;
        }
        NoteCurrent();
      }
      assert world.sockets == [] ==> world.sockets + [Socket(C.Initial(at), true)] == [Socket(C.Initial(at), true)];
      Open(at);
    }

    method DisconnectCurrent(enabled: set<Protocol>) returns (thrown: bool)
      requires Valid() && stompClient != null
      modifies stompClient, stompClient.ws
      ensures Linked() && Sound() && Counted() && ShownBut(|clients| - 1)
      ensures thrown <==> old(stompClient.ws.readyState) == C.CONNECTING
      ensures thrown ==> Valid()
      ensures !thrown ==>
                && stompClient.ws.Abstract() == AfterDisconnect(old(stompClient.ws.Abstract()), enabled)
                && !stompClient.onclose
    {
      assert forall i :: 0 <= i < |clients| - 1 ==> clients[i] != stompClient && clients[i].ws != stompClient.ws;
      thrown := stompClient.Disconnect(enabled);
    }

    /** The current client's socket, as the page sees it. */
    ghost function Current(): Socket
      requires stompClient != null
      reads this, stompClient, stompClient.ws
    {
      Socket(stompClient.ws.Abstract(), stompClient.onclose)
    }

    ghost method NoteCurrent()
      requires Linked() && Sound() && Counted() && stompClient != null && ShownBut(|clients| - 1)
      modifies this`world
      ensures Valid()
      ensures world == old(world).(sockets := old(world).sockets[|clients| - 1 := Current()])
    {
      world := world.(sockets := world.sockets[|clients| - 1 := Current()]);
    }

    /** A client over a new SockJS object. */
    method Open(at: int)
      requires Valid()
      modifies this
      ensures Valid()
      ensures stompClient != null && fresh(stompClient) && fresh(stompClient.ws)
      ensures world == old(world).(sockets := old(world).sockets + [Socket(C.Initial(at), true)])
    {
      var client := NewClient(at);
      Append(client);
      NoteNew();
    }

    method NewClient(at: int) returns (client: Client)
      requires Valid()
      ensures Valid() && forall i :: 0 <= i < |clients| ==> client != clients[i] && client.ws != clients[i].ws
      ensures fresh(client) && fresh(client.ws) && client.Valid() && client.onclose
      ensures client.ws.config == env.config && client.ws.handler == HandlerOf(env)
      ensures client.ws.Abstract() == C.Initial(at)
    {
      var socket := new S.SockJS(env.config, HandlerOf(env), at);
      client := new Client(socket, false);
    }

    method Append(client: Client)
      requires Valid() && client.Valid()
      requires forall i :: 0 <= i < |clients| ==> client != clients[i] && client.ws != clients[i].ws
      requires client.ws.config == env.config && client.ws.handler == HandlerOf(env)
      modifies this`clients, this`stompClient
      ensures Linked() && Sound() && stompClient == client && clients == old(clients) + [client]
      ensures |world.sockets| < |clients| && ShownBut(-1)
    {
      clients := clients + [client];
      stompClient := client;
    }

    ghost method NoteNew()
      requires Linked() && Sound() && |clients| == |world.sockets| + 1 && world.timers == timers && ShownBut(-1)
      modifies this`world
      ensures Valid()
      ensures world == old(world).(sockets := old(world).sockets + [Current()])
    {
      world := world.(sockets := world.sockets + [Current()]);
    }

    /** The error callback. */
    method Reconnect()
      requires Valid()
      modifies this
      ensures Valid() && world == old(world).(timers := old(world).timers + 1)
    {
      timers := timers + 1;
      world := world.(timers := timers);
    }

    method TakeTimer()
      requires Valid() && timers > 0
      modifies this`timers, this`world
      ensures Valid() && world == old(world).(timers := old(world).timers - 1)
    {
      timers := timers - 1;
      world := world.(timers := timers);
    }

    /** A reconnect timer fires. */
    method OnTimer(at: int, enabled: set<Protocol>) returns (thrown: bool)
      requires Valid()
      modifies this, if stompClient == null then {} else {stompClient, stompClient.ws}
      ensures Valid()
      ensures world == Step(env, old(world), ReconnectTimer(at, enabled))
      ensures thrown <==> old(timers) > 0 && Page.Connect(old(world), at, enabled).1
    {
      if timers > 0 {
        TakeTimer();
        thrown := Connect(at, enabled);
      } else {
        thrown := false;
      }
    }

    /** Something happens to a socket; its handlers call `reconnect` as often as their events
        ask for. */
    method OnSocketEvent(i: nat, o: C.Occurrence)
      requires Valid() && i < |clients|
      modifies this, clients[i].ws
      ensures Valid()
      ensures world == Step(env, old(world), SocketStep(i, o))
    {
      var seen := |clients[i].ws.dispatched|;
      assert world.sockets[i] == Socket(clients[i].ws.Abstract(), clients[i].onclose);
      StepSocket(i, o);
      var started := Scheduled(env, clients[i].ws.dispatched, seen, clients[i].onclose);
      StepLands(env, world, i, o, clients[i].ws.Abstract(), started);
      Start(i, started);
    }

    method StepSocket(i: nat, o: C.Occurrence)
      requires Valid() && i < |clients|
      modifies clients[i].ws
      ensures Linked() && Sound() && Counted() && ShownBut(i)
      ensures clients[i].ws.Abstract() == C.Step(env.config, HandlerOf(env), old(clients[i].ws.Abstract()), o).state
    {
      assert forall j :: 0 <= j < |clients| && j != i ==> clients[j].ws != clients[i].ws;
      var _ := clients[i].ws.HandleEvent(o);
    }

    method Start(i: nat, started: nat)
      requires Linked() && Sound() && Counted() && i < |clients| && ShownBut(i)
      requires world.sockets[i].onclose == clients[i].onclose
      modifies this`timers, this`world
      ensures Valid() && world == Landed(old(world), i, clients[i].ws.Abstract(), started)
    {
      timers := timers + started;
      world := Landed(world, i, clients[i].ws.Abstract(), started);
    }
  }

  lemma StepLands(env: Env, w: World, i: nat, o: C.Occurrence, t: C.State, started: nat)
    requires i < |w.sockets|
    requires t == C.Step(env.config, HandlerOf(env), w.sockets[i].conn, o).state
    requires started == Scheduled(env, t.log, |w.sockets[i].conn.log|, w.sockets[i].onclose)
    ensures Step(env, w, SocketStep(i, o)) == Landed(w, i, t, started)
  {
  }
}
