/** The request router of package dramahttp: a path-keyed handler table, dispatch by
    exact path, a listener that is held between Start and Stop, and the helpers that
    shape a JSON response. The transport (fasthttp), the JSON codec (jsoniter) and the
    logger are collaborators: their outcomes are parameters, their effects on the
    request context are the context's setters, and handlers are opaque identities. */
module DramaHttp {
  import opened GoTypes

  const StatusOK := 200
  const StatusNotFound := 404
  const StatusInternalServerError := 500

  /** The content type every JSON helper writes. */
  const JsonContentType: Bytes := Ascii("application/json;charset=UTF-8")

  /** The identity of an `APIHandle` function value. */
  type HandlerId = nat

  /** The identity of a `net.Listener` returned by a successful bind. */
  type ListenerId = nat

  // ---------------------------------------------------------------------------
  // Request context
  // ---------------------------------------------------------------------------

  /** The response fields a request context carries, as one value. */
  datatype Response = Response(status: int, contentType: Bytes, body: Bytes)

  /** The part of `fasthttp.RequestCtx` the router reads and writes. */
  class RequestCtx {
    const path: Bytes
    const postBody: Bytes
    var status: int
    var contentType: Bytes
    var body: Bytes
    /** The handlers invoked with this context, in call order. */
    ghost var invoked: seq<HandlerId>

    /** A request as the transport hands it over; `initial` is the response the
        transport has prepared before the router or a handler writes to it. */
    constructor (path: Bytes, postBody: Bytes, initial: Response)
      ensures this.path == path && this.postBody == postBody
      ensures Written() == initial && invoked == []
    {
      this.path := path;
      this.postBody := postBody;
      status := initial.status;
      contentType := initial.contentType;
      body := initial.body;
      invoked := [];
    }

    function Written(): Response
      reads this
    {
      Response(status, contentType, body)
    }

    method SetStatusCode(code: int)
      modifies this`status
      ensures status == code
    {
      status := code;
    }

    method SetContentType(ct: Bytes)
      modifies this`contentType
      ensures contentType == ct
    {
      contentType := ct;
    }

    method SetBody(b: Bytes)
      modifies this`body
      ensures body == b
    {
      body := b;
    }
  }

  // ---------------------------------------------------------------------------
  // Registration table and dispatch decision
  // ---------------------------------------------------------------------------

  /** Registered handlers by exact path; `None` is a handler registered as nil. */
  type Table = map<Bytes, Option<HandlerId>>

  /** What dispatch does with a request. */
  datatype Route = Invoke(handler: HandlerId) | NotFound

  /** Go's comma-ok map read: the stored value and true, or nil and false. */
  function MapGet(table: Table, key: Bytes): (Option<HandlerId>, bool)
  {
    if key in table then (table[key], true) else (None, false)
  }

  /** The dispatch decision for a path: a hit with a non-nil handler invokes it,
      a miss or a nil handler is a 404. */
  function RouteFor(table: Table, path: Bytes): (d: Route)
    ensures d.Invoke? <==> path in table && table[path].Some?
    ensures d.Invoke? ==> table[path] == Some(d.handler)
    ensures d == NotFound <==> path !in table || table[path] == None
  {
    var (h, isok) := MapGet(table, path);
    if isok && h.Some? then Invoke(h.value) else NotFound
  }

  /** One `RegHandle(path, handle)` call. */
  datatype Registration = Registration(path: Bytes, handle: Option<HandlerId>)

  /** The table after the registrations `regs`, made in order, starting from `table`. */
  function Replay(table: Table, regs: seq<Registration>): Table
    decreases |regs|
  {
    if regs == [] then table
    else
      var n := |regs| - 1;
      Replay(table, regs[..n])[regs[n].path := regs[n].handle]
  }

  /** The last registration for a path is the one the table holds. */
  lemma {:induction false} ReplayLastWins(table: Table, regs: seq<Registration>, i: nat)
    requires i < |regs|
    requires forall j :: i < j < |regs| ==> regs[j].path != regs[i].path
    ensures regs[i].path in Replay(table, regs)
    ensures Replay(table, regs)[regs[i].path] == regs[i].handle
  {
    var n := |regs| - 1;
    if i < n {
      ReplayLastWins(table, regs[..n], i);
    }
  }

  /** A path no registration names keeps the entry (or absence) it had before. */
  lemma {:induction false} ReplayUntouched(table: Table, regs: seq<Registration>, p: Bytes)
    requires forall j :: 0 <= j < |regs| ==> regs[j].path != p
    ensures p in Replay(table, regs) <==> p in table
    ensures p in table ==> Replay(table, regs)[p] == table[p]
  {
    if regs != [] {
      ReplayUntouched(table, regs[..|regs| - 1], p);
    }
  }

  /** After any registrations on a new server, a request for a registered path is
      routed by its last registration: to its handler, or to 404 if that was nil. */
  lemma {:induction false} RoutedByLastRegistration(regs: seq<Registration>, i: nat)
    requires i < |regs|
    requires forall j :: i < j < |regs| ==> regs[j].path != regs[i].path
    ensures RouteFor(Replay(map[], regs), regs[i].path)
         == if regs[i].handle.Some? then Invoke(regs[i].handle.value) else NotFound
  {
    ReplayLastWins(map[], regs, i);
  }

  /** After any registrations on a new server, a path never registered is a 404. */
  lemma {:induction false} UnregisteredIsNotFound(regs: seq<Registration>, p: Bytes)
    requires forall j :: 0 <= j < |regs| ==> regs[j].path != p
    ensures RouteFor(Replay(map[], regs), p) == NotFound
  {
    ReplayUntouched(map[], regs, p);
  }

  // ---------------------------------------------------------------------------
  // Listener lifecycle
  // ---------------------------------------------------------------------------

  /** A call the server makes on the network: a successful Listen, or a Close. */
  datatype ListenerEvent = Bound(id: ListenerId) | Closed(id: ListenerId)

  /** The listener held, if any, and every Listen/Close made so far. */
  datatype Lifecycle = Lifecycle(held: Option<ListenerId>, events: seq<ListenerEvent>)

  /** `Stop`: close and drop the held listener, if there is one. */
  function StopStep(s: Lifecycle): (r: Lifecycle)
    ensures r.held == None
    ensures s.held == None ==> r == s
    ensures s.held.Some? ==> r.events == s.events + [Closed(s.held.value)]
  {
    match s.held
    case None => s
    case Some(l) => Lifecycle(None, s.events + [Closed(l)])
  }

  /** `Start`, up to the serve call: stop what is held, then bind. On success the new
      listener is held; on failure nothing is. */
  function StartStep(s: Lifecycle, bind: Result<ListenerId>): (r: Lifecycle)
    ensures r.held == if bind.Ok? then Some(bind.value) else None
    ensures s.held.Some? ==> |r.events| > |s.events| && r.events[|s.events|] == Closed(s.held.value)
    ensures bind.Ok? ==> r.events == StopStep(s).events + [Bound(bind.value)]
    ensures bind.Err? ==> r == StopStep(s)
  {
    var stopped := StopStep(s);
    match bind
    case Err(_) => stopped
    case Ok(l) => Lifecycle(Some(l), stopped.events + [Bound(l)])
  }

  /** No listener is leaked: Listens and Closes alternate, each Close closes the
      listener of the Listen before it, and the listener held is the one bound last
      and not yet closed. */
  ghost predicate Bracketed(s: Lifecycle)
  {
    && (forall i :: 0 <= i < |s.events| ==> (s.events[i].Bound? <==> i % 2 == 0))
    && (forall i :: 0 < i < |s.events| && i % 2 == 1 ==> s.events[i].id == s.events[i - 1].id)
    && s.held == (if |s.events| % 2 == 1 then Some(s.events[|s.events| - 1].id) else None)
  }

  lemma StopKeepsBracketed(s: Lifecycle)
    requires Bracketed(s)
    ensures Bracketed(StopStep(s))
  {
  }

  lemma StartKeepsBracketed(s: Lifecycle, bind: Result<ListenerId>)
    requires Bracketed(s)
    ensures Bracketed(StartStep(s, bind))
  {
  }

  /** A listener that was bound has been closed by the very next network call, or it
      is the one still held. */
  lemma BoundIsClosedOrHeld(s: Lifecycle, i: nat)
    requires Bracketed(s)
    requires i < |s.events| && s.events[i].Bound?
    ensures || (i + 1 < |s.events| && s.events[i + 1] == Closed(s.events[i].id))
            || (i == |s.events| - 1 && s.held == Some(s.events[i].id))
  {
  }

  /** A controlling thread's calls of `Start` (with the outcome of its bind) and `Stop`. */
  datatype LifecycleCall = StartCall(bind: Result<ListenerId>) | StopCall

  /** The lifecycle after the calls `calls`, made in order, starting from `s`. */
  function Run(s: Lifecycle, calls: seq<LifecycleCall>): Lifecycle
    decreases |calls|
  {
    if calls == [] then s
    else
      var before := Run(s, calls[..|calls| - 1]);
      match calls[|calls| - 1]
      case StopCall => StopStep(before)
      case StartCall(bind) => StartStep(before, bind)
  }

  /** However `Start` and `Stop` are interleaved, no listener is leaked. */
  lemma {:induction false} RunKeepsBracketed(s: Lifecycle, calls: seq<LifecycleCall>)
    requires Bracketed(s)
    ensures Bracketed(Run(s, calls))
  {
    if calls != [] {
      var before := Run(s, calls[..|calls| - 1]);
      RunKeepsBracketed(s, calls[..|calls| - 1]);
      match calls[|calls| - 1]
      case StopCall => StopKeepsBracketed(before);
      case StartCall(bind) => StartKeepsBracketed(before, bind);
    }
  }

  // ---------------------------------------------------------------------------
  // The server
  // ---------------------------------------------------------------------------

  class Serv {
    const bindAddr: Bytes
    const isDebugMode: bool
    var mapAPI: Table
    var listener: Option<ListenerId>
    /** The Listen and Close calls this server has made. */
    ghost var events: seq<ListenerEvent>

    ghost function State(): Lifecycle
      reads this
    {
      Lifecycle(listener, events)
    }

    ghost predicate Valid()
      reads this
    {
      Bracketed(State())
    }

    /** `NewServ`: an empty table, no listener, no network call made. */
    constructor (bindAddr: Bytes, isDebugMode: bool)
      ensures Valid()
      ensures this.bindAddr == bindAddr && this.isDebugMode == isDebugMode
      ensures mapAPI == map[] && listener == None && events == []
    {
      this.bindAddr := bindAddr;
      this.isDebugMode := isDebugMode;
      mapAPI := map[];
      listener := None;
      events := [];
    }

    /** `RegHandle`: the entry for `name` becomes `handle`; every other entry stays. */
    method RegHandle(name: Bytes, handle: Option<HandlerId>)
      modifies this`mapAPI
      ensures mapAPI == Replay(old(mapAPI), [Registration(name, handle)])
      ensures name in mapAPI && mapAPI[name] == handle
      ensures forall p :: p != name ==> (p in mapAPI <==> p in old(mapAPI))
      ensures forall p :: p != name && p in mapAPI ==> mapAPI[p] == old(mapAPI)[p]
    {
      mapAPI := mapAPI[name := handle];
      assert [Registration(name, handle)][..0] == [];
    }

    /** `HandleFastHTTP`: invoke the handler registered for the request's path, or
        answer 404. `effect(h)` is what handler `h` does to the response it is given;
        the router writes nothing before or after it. */
    method HandleFastHTTP(ctx: RequestCtx, effect: HandlerId -> Response -> Response)
      modifies ctx`status, ctx`contentType, ctx`body, ctx`invoked
      ensures RouteFor(mapAPI, ctx.path).Invoke? ==>
                && ctx.invoked == old(ctx.invoked) + [RouteFor(mapAPI, ctx.path).handler]
                && ctx.Written() == effect(RouteFor(mapAPI, ctx.path).handler)(old(ctx.Written()))
      ensures RouteFor(mapAPI, ctx.path) == NotFound ==>
                && ctx.invoked == old(ctx.invoked)
                && ctx.Written() == old(ctx.Written()).(status := StatusNotFound)
    {
      // The debug flag only gates a log record of the request.
      var (h, isok) := MapGet(mapAPI, ctx.path);
      if isok && h.Some? {
        // Invoke the handler: it is recorded, and its writes replace the response.
        ctx.invoked := ctx.invoked + [h.value];
        var written := effect(h.value)(ctx.Written());
        ctx.status, ctx.contentType, ctx.body := written.status, written.contentType, written.body;
      } else {
        SetHTTPStatus(ctx, StatusNotFound);
      }
    }

    /** `Stop`: close the held listener, if any; always a nil error. */
    method Stop() returns (err: Option<Error>)
      requires Valid()
      modifies this`listener, this`events
      ensures Valid()
      ensures State() == StopStep(old(State()))
      ensures err == None
    {
      StopKeepsBracketed(State());
      if listener.Some? {
        // Close the held listener.
        events := events + [Closed(listener.value)];
        listener := None;
      }
      return None;
    }

    /** `Start`: stop what is held, bind `bindAddr`, then serve until the serve call
        returns. `bind` is the outcome of the bind and `serve` the error the serve
        call returns. */
    method Start(bind: Result<ListenerId>, serve: Option<Error>) returns (err: Option<Error>)
      requires Valid()
      modifies this`listener, this`events
      ensures Valid()
      ensures State() == StartStep(old(State()), bind)
      ensures err == if bind.Err? then Some(bind.error) else serve
    {
      StartKeepsBracketed(State(), bind);
      if listener.Some? {
        var _ := Stop();
      }
      match bind
      case Err(e) =>
        return Some(e);
      case Ok(ln) =>
        events := events + [Bound(ln)];
        listener := Some(ln);
        return serve;
    }

    /** `SetResponse`: nil is an empty JSON 200; a value is encoded by `marshal` and
        sent as a JSON 200, or, when it does not encode, only the status becomes 500. */
    method SetResponse<V>(ctx: RequestCtx, jsonObj: Option<V>, marshal: V -> Result<Bytes>)
      modifies ctx`status, ctx`contentType, ctx`body
      ensures jsonObj == None ==> ctx.Written() == Response(StatusOK, JsonContentType, [])
      ensures jsonObj.Some? && marshal(jsonObj.value).Err? ==>
                ctx.Written() == old(ctx.Written()).(status := StatusInternalServerError)
      ensures jsonObj.Some? && marshal(jsonObj.value).Ok? ==>
                ctx.Written() == Response(StatusOK, JsonContentType, marshal(jsonObj.value).value)
    {
      if jsonObj == None {
        ctx.SetContentType(JsonContentType);
        ctx.SetStatusCode(StatusOK);
        ctx.SetBody([]);
        return;
      }
      var b := marshal(jsonObj.value);
      if b.Err? {
        SetHTTPStatus(ctx, StatusInternalServerError);
        return;
      }
      ctx.SetContentType(JsonContentType);
      ctx.SetStatusCode(StatusOK);
      ctx.SetBody(b.value);
    }

    /** `SetStringResponse`: a JSON 200 whose body is `str` byte for byte. */
    method SetStringResponse(ctx: RequestCtx, str: Bytes)
      modifies ctx`status, ctx`contentType, ctx`body
      ensures ctx.Written() == Response(StatusOK, JsonContentType, str)
    {
      ctx.SetContentType(JsonContentType);
      ctx.SetStatusCode(StatusOK);
      ctx.SetBody(str);
    }

    /** `SetHTTPStatus`: only the status code changes. */
    method SetHTTPStatus(ctx: RequestCtx, statusCode: int)
      modifies ctx`status
      ensures ctx.Written() == old(ctx.Written()).(status := statusCode)
    {
      ctx.SetStatusCode(statusCode);
    }

    /** `ParseBody`: decode the request body into the caller's target `params` with
        `unmarshal`, which is given the target as it was and yields it as the decoder
        leaves it (fields the body omits keep their values; an error may come after a
        partial write). The target is returned as the decoder left it, the decoder's
        error is returned as it is, and the response is left alone. */
    method ParseBody<V>(ctx: RequestCtx, params: V, unmarshal: (Bytes, V) -> (V, Option<Error>))
      returns (filled: V, err: Option<Error>)
      ensures (filled, err) == unmarshal(ctx.postBody, params)
    {
      var (decoded, e) := unmarshal(ctx.postBody, params);
      filled := decoded;
      if e.Some? {
        return filled, e;
      }
      return filled, None;
    }
  }

  /** A `/ping` endpoint on a new server: the request for `/ping` reaches its handler,
      which answers with a fixed JSON string; a request for `/missing` is a 404 with
      nothing else written. */
  method PingScenario(ping: HandlerId, initial: Response)
  {
    var s := new Serv(Ascii("127.0.0.1:8080"), false);
    s.RegHandle(Ascii("/ping"), Some(ping));

    // The ping handler answers as `SetStringResponse` does; no other handler exists.
    var pong := Ascii("{\"pong\":true}");
    var effect := (h: HandlerId) => (r: Response) =>
      if h == ping then Response(StatusOK, JsonContentType, pong) else r;

    var hit := new RequestCtx(Ascii("/ping"), [], initial);
    s.HandleFastHTTP(hit, effect);
    assert hit.invoked == [ping];
    assert hit.Written() == Response(StatusOK, JsonContentType, pong);

    var miss := new RequestCtx(Ascii("/missing"), [], initial);
    assert Ascii("/missing") != Ascii("/ping");
    s.HandleFastHTTP(miss, effect);
    assert miss.invoked == [] && miss.Written() == initial.(status := StatusNotFound);
  }
}
