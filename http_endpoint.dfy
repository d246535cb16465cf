/** The plain HTTP side of the gateway: what a request that is not an upgrade
    is answered with. The server has two request listeners: the banner
    listener given to the server on creation, and the health listener added
    afterwards. Attaching socket.io puts its engine in front of them: a
    target under socket.io's path is served by the engine alone, and every
    other request reaches both listeners, in that order. */
module HttpEndpoint {
  import opened Routing

  const HEALTH_PATH: string := "/health"
  const OPTIONS_METHOD: string := "OPTIONS"
  const TEXT_PLAIN: string := "text/plain"
  const APPLICATION_JSON: string := "application/json"
  const OK: nat := 200

  /** What a response carries. The health report's uptime and memory figures
      come from the process and are not part of this model. */
  datatype Body =
    | EmptyBody
    | Banner
    | HealthReport(connections: int)

  /** A response the gateway writes itself (`contentType` is "" when the
      listener sets none), or none at all: targets under socket.io's path are
      served by socket.io's engine, and PeerJS requests are left to PeerJS. */
  datatype Reply =
    | Answered(status: nat, contentType: string, body: Body)
    | LeftToSocketIo
    | LeftToPeerJs

  /** The engine attached by socket.io serves every target that starts with
      socket.io's path, preflights included, before any listener of the
      gateway sees it. */
  predicate ServedBySocketIo(url: string) {
    StartsWith(url, SOCKET_IO_PATH)
  }

  /** The banner listener: a CORS preflight gets an empty 200, PeerJS requests
      are left alone, and everything else gets the text banner. */
  function BannerListener(httpMethod: string, url: string): Reply {
    if httpMethod == OPTIONS_METHOD then Answered(OK, "", EmptyBody)
    else if StartsWith(url, PEERJS_PREFIX) then LeftToPeerJs
    else Answered(OK, TEXT_PLAIN, Banner)
  }

  /** The outcome of running both listeners as written: the reply that reaches
      the client, and whether the health listener then tried to write a second
      response after the first one had ended. */
  datatype Dispatch = Dispatch(reply: Reply, lateHealthWrite: bool)

  /** socket.io's engine first, then both listeners, in the order the server
      runs them. The health listener only acts on the exact target "/health",
      and by then the banner listener has always answered it. */
  function AsWritten(httpMethod: string, url: string, connections: int): Dispatch {
    var first := BannerListener(httpMethod, url);
    if ServedBySocketIo(url) then Dispatch(LeftToSocketIo, false)
    else if url == HEALTH_PATH && first.LeftToPeerJs? then
      Dispatch(Answered(OK, APPLICATION_JSON, HealthReport(connections)), false)
    else
      Dispatch(first, url == HEALTH_PATH)
  }

  /** As written, no request ever receives the health report: "/health" is
      answered by the banner listener, and the health listener's JSON comes
      after the response has ended. */
  lemma HealthReportUnreachableAsWritten(httpMethod: string, url: string, connections: int)
    ensures !AsWritten(httpMethod, url, connections).reply.Answered?
         || !AsWritten(httpMethod, url, connections).reply.body.HealthReport?
    ensures url == HEALTH_PATH ==> AsWritten(httpMethod, url, connections).lateHealthWrite
    ensures url == HEALTH_PATH && httpMethod != OPTIONS_METHOD ==>
      AsWritten(httpMethod, url, connections).reply == Answered(OK, TEXT_PLAIN, Banner)
  {
    HealthNotReserved();
  }

  /** "/health" is neither under socket.io's path nor under PeerJS's prefix. */
  lemma HealthNotReserved()
    ensures !ServedBySocketIo(HEALTH_PATH)
    ensures !StartsWith(HEALTH_PATH, PEERJS_PREFIX)
  {
    assert HEALTH_PATH[1] != SOCKET_IO_PATH[1];
    assert HEALTH_PATH[1] != PEERJS_PREFIX[1];
  }

  /** The request handling the health endpoint is meant to have: socket.io's
      engine keeps its own targets, a preflight gets an empty 200, "/health"
      gets the JSON report, PeerJS requests are left to PeerJS and everything
      else gets the banner. */
  function HandleRequest(httpMethod: string, url: string, connections: int): Reply {
    if ServedBySocketIo(url) then LeftToSocketIo
    else if httpMethod == OPTIONS_METHOD then Answered(OK, "", EmptyBody)
    else if url == HEALTH_PATH then Answered(OK, APPLICATION_JSON, HealthReport(connections))
    else if StartsWith(url, PEERJS_PREFIX) then LeftToPeerJs
    else Answered(OK, TEXT_PLAIN, Banner)
  }

  /** The corrected handling answers "/health" with the JSON report of the
      open connections, answers every request it answers with 200, and differs
      from the listeners as written only on "/health": elsewhere it gives the
      same reply and there is no late write to drop. */
  lemma HandleRequestCorrectsOnlyHealth(httpMethod: string, url: string, connections: int)
    ensures url == HEALTH_PATH && httpMethod != OPTIONS_METHOD ==>
      HandleRequest(httpMethod, url, connections) == Answered(OK, APPLICATION_JSON, HealthReport(connections))
    ensures HandleRequest(httpMethod, url, connections).Answered? ==>
      HandleRequest(httpMethod, url, connections).status == OK
    ensures url != HEALTH_PATH ==>
      HandleRequest(httpMethod, url, connections) == AsWritten(httpMethod, url, connections).reply
      && !AsWritten(httpMethod, url, connections).lateHealthWrite
    ensures httpMethod == OPTIONS_METHOD ==>
      HandleRequest(httpMethod, url, connections) == AsWritten(httpMethod, url, connections).reply
  {
    HealthNotReserved();
  }

  /** Under the corrected handling, as in the listeners as written, a request
      is left to socket.io's engine exactly when its target is under
      socket.io's path, and to PeerJS exactly when it is not a preflight and
      its target starts with PeerJS's prefix. */
  lemma PeerJsRequestsLeftAlone(httpMethod: string, url: string, connections: int)
    ensures HandleRequest(httpMethod, url, connections).LeftToSocketIo?
      <==> ServedBySocketIo(url)
    ensures AsWritten(httpMethod, url, connections).reply.LeftToSocketIo?
      <==> ServedBySocketIo(url)
    ensures HandleRequest(httpMethod, url, connections).LeftToPeerJs?
      <==> httpMethod != OPTIONS_METHOD && StartsWith(url, PEERJS_PREFIX)
  {
    HealthNotReserved();
    if StartsWith(url, PEERJS_PREFIX) {
      assert url[1] == PEERJS_PREFIX[1] != SOCKET_IO_PATH[1];
    }
  }
}
