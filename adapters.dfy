/**
 * The adapters that register a route table with a third-party router.
 *
 * The library routers are foreign code: each one is modelled by the log of
 * registration calls made on it, in call order. A loader that panics leaves
 * behind what it registered before the panic, together with the panic
 * message (see Routes.Load).
 */
module Adapters {
  import opened Routes
  import opened PathRewrite

  /** The five libraries whose loaders select the registration call with a switch on the method. */
  datatype Library = Beego | Goji | GoRestful | Macaron | Martini

  /** One `Get`/`Post`/`Put`/`Patch`/`Delete` call on a router: the entry point, the path and the handler. */
  datatype Registration = Registration(verb: Verb, path: string, handler: string)

  /** One `HandleFunc(template, handler).Methods(method)` call on a gorilla/mux router. */
  datatype MuxRoute = MuxRoute(template: string, httpMethod: string, handler: string)

  /** The panic message of the bulk loaders' `default` branch; goji's spelling differs from the others'. */
  function BulkPanicPrefix(lib: Library): string {
    if lib == Goji then "Unknown HTTP method: " else "Unknow HTTP method: "
  }

  /** The panic message of every single-route loader's `default` branch. */
  const SinglePanicPrefix: string := "Unknow HTTP method: "

  /** The handler each bulk loader registers (macaron reuses the martini handler). */
  function BulkHandler(lib: Library): string {
    match lib
    case Beego => "beegoHandler"
    case Goji => "httpHandlerFunc"
    case GoRestful => "goRestfulHandler"
    case Macaron => "martiniHandler"
    case Martini => "martiniHandler"
  }

  /** The index of the first route whose method the switch rejects, or |routes| when there is none. */
  function FirstRejected(routes: seq<Route>): (k: nat)
    ensures k <= |routes|
    ensures forall i :: 0 <= i < k ==> Accepted(routes[i].httpMethod)
    ensures k < |routes| ==> !Accepted(routes[k].httpMethod)
  {
    if routes == [] then 0
    else if !Accepted(routes[0].httpMethod) then 0
    else 1 + FirstRejected(routes[1..])
  }

  /** reg is the registration of route by a bulk loader of lib: same method, same path, that loader's handler. */
  predicate RegisteredAs(lib: Library, reg: Registration, route: Route) {
    && reg.verb.Name() == route.httpMethod
    && reg.path == route.path
    && reg.handler == BulkHandler(lib)
  }

  /**
   * What a switch-based bulk loader promises: every route before the first
   * rejected one is registered once, in table order, with its own method;
   * the loader panics exactly when some route is rejected, with that
   * route's method in the message, and registers nothing after it.
   */
  predicate LoadedInOrder(lib: Library, routes: seq<Route>, app: Load<seq<Registration>>) {
    var k := FirstRejected(routes);
    && (app.Aborted() <==> exists i :: 0 <= i < |routes| && !Accepted(routes[i].httpMethod))
    && |app.router| == k
    && (forall i :: 0 <= i < k ==> RegisteredAs(lib, app.router[i], routes[i]))
    && (app.Aborted() ==> k < |routes| && app.panic.value == BulkPanicPrefix(lib) + routes[k].httpMethod)
  }

  /**
   * The loop shared by loadBeego, loadGoji, loadGoRestful, loadMacaron and
   * loadMartini: for each route, switch on the method, call the matching
   * entry point, or panic in the default branch. beego first passes the
   * path through its `":$1"` rewrite.
   */
  method LoadSwitched(lib: Library, routes: seq<Route>) returns (app: Load<seq<Registration>>)
    ensures LoadedInOrder(lib, routes, app)
  {
    var log: seq<Registration> := [];
    var i := 0;
    while i < |routes|
      invariant 0 <= i <= |routes|
      invariant forall j :: 0 <= j < i ==> Accepted(routes[j].httpMethod)
      invariant |log| == i
      invariant forall j :: 0 <= j < i ==> RegisteredAs(lib, log[j], routes[j])
    {
      var route := routes[i];
      var path := if lib == Beego then BeegoTemplate(route.path) else route.path;
      match ParseVerb(route.httpMethod)
      case None =>
        return Load(log, Some(BulkPanicPrefix(lib) + route.httpMethod));
      case Some(v) =>
        log := log + [Registration(v, path, BulkHandler(lib))];
      i := i + 1;
    }
    return Load(log, None);
  }

  method LoadBeego(routes: seq<Route>) returns (app: Load<seq<Registration>>)
    ensures LoadedInOrder(Beego, routes, app)
  {
    app := LoadSwitched(Beego, routes);
  }

  method LoadGoji(routes: seq<Route>) returns (mux: Load<seq<Registration>>)
    ensures LoadedInOrder(Goji, routes, mux)
  {
    mux := LoadSwitched(Goji, routes);
  }

  method LoadGoRestful(routes: seq<Route>) returns (ws: Load<seq<Registration>>)
    ensures LoadedInOrder(GoRestful, routes, ws)
  {
    ws := LoadSwitched(GoRestful, routes);
  }

  method LoadMacaron(routes: seq<Route>) returns (m: Load<seq<Registration>>)
    ensures LoadedInOrder(Macaron, routes, m)
  {
    m := LoadSwitched(Macaron, routes);
  }

  method LoadMartini(routes: seq<Route>) returns (router: Load<seq<Registration>>)
    ensures LoadedInOrder(Martini, routes, router)
  {
    router := LoadSwitched(Martini, routes);
  }

  /**
   * What a switch-based single-route loader promises: a fresh router that
   * holds exactly the one given registration when the method is accepted,
   * and a panic naming the method, with nothing registered, otherwise.
   */
  predicate LoadedSingle(httpMethod: string, path: string, handler: string, app: Load<seq<Registration>>) {
    && (app.Aborted() <==> !Accepted(httpMethod))
    && (app.Aborted() ==> app.router == [] && app.panic.value == SinglePanicPrefix + httpMethod)
    && (!app.Aborted() ==>
          |app.router| == 1
          && app.router[0].verb.Name() == httpMethod
          && app.router[0].path == path
          && app.router[0].handler == handler)
  }

  /** The switch shared by the five `*Single` loaders. */
  function LoadSingle(httpMethod: string, path: string, handler: string): (app: Load<seq<Registration>>)
    ensures LoadedSingle(httpMethod, path, handler, app)
  {
    match ParseVerb(httpMethod)
    case None => Load([], Some(SinglePanicPrefix + httpMethod))
    case Some(v) => Load([Registration(v, path, handler)], None)
  }

  function LoadBeegoSingle(httpMethod: string, path: string, handler: string): (app: Load<seq<Registration>>)
    ensures LoadedSingle(httpMethod, path, handler, app)
  {
    LoadSingle(httpMethod, path, handler)
  }

  function LoadGojiSingle(httpMethod: string, path: string, handler: string): (mux: Load<seq<Registration>>)
    ensures LoadedSingle(httpMethod, path, handler, mux)
  {
    LoadSingle(httpMethod, path, handler)
  }

  function LoadGoRestfulSingle(httpMethod: string, path: string, handler: string): (ws: Load<seq<Registration>>)
    ensures LoadedSingle(httpMethod, path, handler, ws)
  {
    LoadSingle(httpMethod, path, handler)
  }

  function LoadMacaronSingle(httpMethod: string, path: string, handler: string): (m: Load<seq<Registration>>)
    ensures LoadedSingle(httpMethod, path, handler, m)
  {
    LoadSingle(httpMethod, path, handler)
  }

  function LoadMartiniSingle(httpMethod: string, path: string, handler: string): (router: Load<seq<Registration>>)
    ensures LoadedSingle(httpMethod, path, handler, router)
  {
    LoadSingle(httpMethod, path, handler)
  }

  /**
   * loadGorillaMux: every route is registered, in order, under the brace
   * rewrite of its path and with its method as given; there is no method
   * check, so the loader never panics.
   */
  method LoadGorillaMux(routes: seq<Route>) returns (m: Load<seq<MuxRoute>>)
    ensures !m.Aborted()
    ensures |m.router| == |routes|
    ensures forall i :: 0 <= i < |routes| ==>
              && m.router[i].httpMethod == routes[i].httpMethod
              && Split(m.router[i].template) == MapTemplate(Split(routes[i].path), "{", "}")
              && m.router[i].template == Join(MapTemplate(Split(routes[i].path), "{", "}"))
              && m.router[i].handler == "httpHandlerFunc"
  {
    var log: seq<MuxRoute> := [];
    for i := 0 to |routes|
      invariant |log| == i
      invariant forall j :: 0 <= j < i ==>
                  && log[j].httpMethod == routes[j].httpMethod
                  && Split(log[j].template) == MapTemplate(Split(routes[j].path), "{", "}")
                  && log[j].template == Join(MapTemplate(Split(routes[j].path), "{", "}"))
                  && log[j].handler == "httpHandlerFunc"
    {
      var route := routes[i];
      var template := GorillaTemplate(route.path);
      RewritePreservesSegments(route.path, "{", "}");
      RewriteBySegments(route.path, "{", "}");
      log := log + [MuxRoute(template, route.httpMethod, "httpHandlerFunc")];
    }
    m := Load(log, None);
  }

  /** loadGorillaMuxSingle: the path is used as given and any method string is registered. */
  function LoadGorillaMuxSingle(httpMethod: string, path: string, handler: string): (m: Load<seq<MuxRoute>>)
    ensures !m.Aborted()
    ensures |m.router| == 1 && m.router[0].httpMethod == httpMethod && m.router[0].template == path
    ensures m.router[0].handler == handler
  {
    Load([MuxRoute(path, httpMethod, handler)], None)
  }

  /** The route descriptor a registration was made from. */
  function Described(reg: Registration): (r: Route)
    ensures r.path == reg.path && Accepted(r.httpMethod)
  {
    ParseVerbName(reg.verb);
    Route(reg.verb.Name(), reg.path)
  }

  /** The route descriptors behind a registration log, in call order. */
  function Replay(log: seq<Registration>): (rs: seq<Route>)
    ensures |rs| == |log|
  {
    if log == [] then [] else [Described(log[0])] + Replay(log[1..])
  }

  lemma {:induction false} ReplayAt(log: seq<Registration>, i: nat)
    requires i < |log|
    ensures Replay(log)[i] == Described(log[i])
    decreases i
  {
    if i > 0 {
      ReplayAt(log[1..], i - 1);
    }
  }

  /**
   * Replaying a bulk loader's log gives back the table up to the first
   * rejected route: nothing is dropped, reordered, duplicated or altered.
   */
  lemma ReplayRecoversTable(lib: Library, routes: seq<Route>, app: Load<seq<Registration>>)
    requires LoadedInOrder(lib, routes, app)
    ensures Replay(app.router) == routes[..FirstRejected(routes)]
    ensures !app.Aborted() ==> Replay(app.router) == routes
  {
    var k := FirstRejected(routes);
    forall i | 0 <= i < k ensures Replay(app.router)[i] == routes[i] {
      ReplayAt(app.router, i);
    }
  }

  /** Two runs of a bulk loader on the same table leave the same log and the same panic. */
  lemma LoadedInOrderDeterministic(lib: Library, routes: seq<Route>, a: Load<seq<Registration>>, b: Load<seq<Registration>>)
    requires LoadedInOrder(lib, routes, a) && LoadedInOrder(lib, routes, b)
    ensures a == b
  {
    forall i | 0 <= i < |a.router| ensures a.router[i] == b.router[i] {
      VerbNameInjective(a.router[i].verb, b.router[i].verb);
    }
    assert a.router == b.router;
    assert a.panic == b.panic;
  }

  lemma VerbNameInjective(v: Verb, w: Verb)
    requires v.Name() == w.Name()
    ensures v == w
  {
    ParseVerbName(v);
    ParseVerbName(w);
  }

  /** A table whose methods are all accepted is registered in full and never panics. */
  lemma AllAcceptedLoadsFully(lib: Library, routes: seq<Route>, app: Load<seq<Registration>>)
    requires forall i :: 0 <= i < |routes| ==> Accepted(routes[i].httpMethod)
    requires LoadedInOrder(lib, routes, app)
    ensures !app.Aborted() && |app.router| == |routes|
  {
  }
}
