/** The Yjs side of the gateway as state changed in place: the WebSocket
    server's set of clients, the open-connection counter, the `isAlive` flag on
    each client, the upgrade and connection handlers, and the heartbeat sweep. */
module DocumentSync {
  import opened Routing
  import opened Heartbeat
  import opened HttpEndpoint

  /** One Yjs WebSocket connection. `terminated` records that `terminate()`
      was called on it; the socket leaves the server's clients only when its
      close event arrives. `pings` counts the ping frames sent, for the
      proofs only. */
  class YjsSocket {
    const docName: string
    var isAlive: bool
    var terminated: bool
    ghost var pings: nat

    ghost function State(): Liveness
      reads this
    {
      Liveness(isAlive, terminated, pings)
    }

    constructor (docName: string)
      ensures this.docName == docName
      ensures State() == ACCEPTED
    {
      this.docName := docName;
      isAlive := true;
      terminated := false;
      pings := 0;
    }

    /** The pong listener. */
    method OnPong()
      modifies this
      ensures State() == AfterPong(old(State()))
    {
      isAlive := true;
    }

    /** `ws.ping(...)`: sends one ping frame. */
    method Ping()
      modifies this
      ensures isAlive == old(isAlive) && terminated == old(terminated)
      ensures pings == old(pings) + 1
    {
      pings := pings + 1;
    }

    /** `ws.terminate()`: destroys the connection at once. */
    method Terminate()
      modifies this
      ensures isAlive == old(isAlive) && pings == old(pings)
      ensures terminated
    {
      terminated := true;
    }
  }

  /** The Yjs WebSocket server with its client set, together with the
      process-wide count of open Yjs connections. */
  class YjsServer {
    var clients: set<YjsSocket>
    var connections: int
    /** How many connections have been opened, and how many closed, so far. */
    ghost var totalOpened: nat
    ghost var totalClosed: nat

    /** The counter is the number of connections opened minus those closed,
        which is the number of clients still tracked, so it is never negative. */
    ghost predicate Valid()
      reads this
    {
      connections == totalOpened - totalClosed && connections == |clients|
    }

    constructor ()
      ensures Valid()
      ensures clients == {} && connections == 0 && totalOpened == 0 && totalClosed == 0
    {
      clients := {};
      connections := 0;
      totalOpened, totalClosed := 0, 0;
    }

    /** The upgrade listener. `pathname` is the pathname the URL parser gives
        for the request target `url`, and `handshakeOk` says whether the
        WebSocket server accepts the handshake (a GET with a well-formed key,
        `Upgrade: websocket` and a supported version). Upgrades the filter
        passes and the WebSocket server accepts become Yjs connections; a
        rejected handshake is answered with an error and connects nothing;
        other upgrades are left untouched for socket.io or PeerJS. */
    method OnUpgrade(url: string, pathname: string, handshakeOk: bool) returns (socket: YjsSocket?)
      requires Valid()
      modifies this
      ensures Valid()
      ensures (socket != null) <==> HandledByYjs(pathname) && handshakeOk
      ensures socket != null ==>
        && fresh(socket)
        && socket.docName == DocName(url)
        && socket.State() == ACCEPTED
        && clients == old(clients) + {socket}
        && connections == old(connections) + 1
        && totalOpened == old(totalOpened) + 1 && totalClosed == old(totalClosed)
      ensures socket == null ==>
        clients == old(clients) && connections == old(connections)
        && totalOpened == old(totalOpened) && totalClosed == old(totalClosed)
    {
      if HandledByYjs(pathname) && handshakeOk {
        socket := OnConnection(url);
      } else {
        socket := null;
      }
    }

    /** The connection listener: the accepted socket joins the clients (as the
        WebSocket server tracks it), the counter goes up by one, the socket is
        marked alive, and its document is named after the request target. */
    method OnConnection(url: string) returns (socket: YjsSocket)
      requires Valid()
      modifies this
      ensures Valid()
      ensures fresh(socket)
      ensures socket.docName == DocName(url) && socket.State() == ACCEPTED
      ensures clients == old(clients) + {socket}
      ensures connections == old(connections) + 1
      ensures totalOpened == old(totalOpened) + 1 && totalClosed == old(totalClosed)
    {
      socket := new YjsSocket(DocName(url));
      clients := clients + {socket};
      connections := connections + 1;
      totalOpened := totalOpened + 1;
    }

    /** The close listener: the socket leaves the clients and the counter goes
        down by one. A socket closes once, after it was accepted. */
    method OnClose(socket: YjsSocket)
      requires Valid()
      requires socket in clients
      modifies this
      ensures Valid()
      ensures clients == old(clients) - {socket}
      ensures connections == old(connections) - 1
      ensures totalOpened == old(totalOpened) && totalClosed == old(totalClosed) + 1
    {
      clients := clients - {socket};
      connections := connections - 1;
      totalClosed := totalClosed + 1;
    }

    /** One heartbeat sweep over the clients, in any order: each client's state
        afterwards is one sweep step from its state before. So every client that
        was marked not alive is terminated and not pinged, and every other one
        is marked not alive and pinged exactly once. The client set and the
        counter do not change. */
    method Sweep()
      requires Valid()
      modifies clients
      ensures Valid()
      ensures clients == old(clients) && connections == old(connections)
      ensures forall c :: c in clients ==> c.State() == AfterSweep(old(c.State()))
    {
      var todo := clients;
      while todo != {}
        invariant todo <= clients
        invariant forall c :: c in clients && c !in todo ==> c.State() == AfterSweep(old(c.State()))
        invariant forall c :: c in todo ==> c.State() == old(c.State())
        decreases todo
      {
        var c :| c in todo;
        if !c.isAlive {
          c.Terminate();
        } else {
          c.isAlive := false;
          c.Ping();
        }
        todo := todo - {c};
      }
    }

    /** A plain HTTP request, answered as the health endpoint is meant to be
        answered: "/health" reports the number of open Yjs connections. */
    method OnRequest(httpMethod: string, url: string) returns (reply: Reply)
      requires Valid()
      ensures reply == HandleRequest(httpMethod, url, connections)
      ensures url == HEALTH_PATH && httpMethod != OPTIONS_METHOD ==>
        reply == Answered(OK, APPLICATION_JSON, HealthReport(|clients|))
    {
      reply := HandleRequest(httpMethod, url, connections);
    }
  }

  /** Two sweeps with no pong in between terminate every client that was
      open before them, so a silent connection is reclaimed within two
      heartbeat intervals. */
  method TwoSilentSweeps(server: YjsServer)
    requires server.Valid()
    modifies server.clients
    ensures server.Valid() && server.clients == old(server.clients)
    ensures forall c :: c in server.clients ==> c.terminated
  {
    server.Sweep();
    server.Sweep();
    forall c | c in server.clients
      ensures c.terminated
    {
      SilentConnectionTerminated(old(c.State()), [Sweep, Sweep]);
      assert [Sweep, Sweep][..1] == [Sweep];
      assert [Sweep][..0] == [];
    }
  }
}
