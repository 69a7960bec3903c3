# go-http-routing-benchmark, modelled in Dafny

The repository benchmarks third-party Go HTTP routers against each other. Its
own logic is the harness around those routers:

- a route descriptor (method, colon-parameter path such as `/people/:userId`);
- one loader per router library that registers a route table with a fresh
  router, rewriting the path into the library's placeholder syntax where
  needed (`{name}` for gorilla/mux via the regular expression `:([^/]*)`, and
  `:name` for beego via the same expression), and, in the five switch-based
  loaders (beego, goji, go-restful, macaron, martini), panicking on a method
  outside GET, POST, PUT, PATCH and DELETE;
- a single-route loader per library, used by the micro-benchmarks;
- two fixture tables, the Parse REST API (26 routes) and the Google+ API
  (13 routes), with the requests the static, one-parameter and two-parameter
  benchmarks send;
- the two dispatch loops: `benchRequest`, which dispatches one prepared
  request b.N times, and `benchRoutes`, which dispatches every route of a
  table b.N times, rewriting one request object in place before each call;
- the path constants of the five- and twenty-parameter micro-benchmarks.

The model:

| file | module | contents |
|---|---|---|
| routes.dfy | Routes | route descriptor, the five-method switch, the outcome of a load (router state plus optional panic) |
| path_rewrite.dfy | PathRewrite | the `:([^/]*)` rewrite as a left-to-right scan, a per-segment reference rewrite and the lemmas joining them; request/template fitting |
| adapters.dfy | Adapters | the switch-based bulk and single loaders of beego, goji, go-restful, macaron and martini; the gorilla/mux loaders |
| revel.dfy | Revel | loadRevel (route list, then path-tree insertions with the extra HEAD key for GET routes) and loadRevelSingle |
| parse_api.dfy | ParseApi | the parseAPI table and its benchmark requests |
| gplus_api.dfy | GPlusApi | the gplusAPI table and its benchmark requests |
| bench.dfy | Bench | the request object as a class, benchRequest and benchRoutes as loops over it, the micro-benchmark constants |

A third-party router is foreign code. The bulk loaders are modelled by the log
of registration calls they make, in order. `revel.NewRoute` and
`pathtree.Tree.Add` are function parameters. `router.ServeHTTP` is a parameter
`serve` that maps the request fields the router sees to the fields it leaves.

Details of the code the model keeps:

- only the five switch-based loaders panic on an unknown method; loadGorillaMux
  registers any method string and loadRevel hands it to `revel.NewRoute`;
- only the gorilla/mux and beego bulk loaders rewrite the path, and beego's
  `":$1"` replacement gives back the path unchanged (`BeegoRewriteIsIdentity`);
- goji's bulk loader panics with "Unknown HTTP method: ", every other
  switch-based loader, goji's single loader included, with "Unknow HTTP method: ";
- the macaron bulk loader registers `martiniHandler` (routers.go:254), not
  `macaronHandler`;
- twentyColon, twentyBrace and twentyRoute are written as the concatenation of
  four five-segment runs, which equals the source's literal character for
  character.

## Model

| member | source | states |
|---|---|---|
| Routes.ParseVerb | routers.go:84-97 | the switch selects an entry point exactly for GET, POST, PUT, PATCH and DELETE, and the selected entry point carries that method name |
| Routes.ParseVerbName | routers.go:84-97 | each of the five entry points is selected by its own method name (the switch is a bijection on the five names) |
| PathRewrite.GorillaTemplate | routers.go:225-229 | `ReplaceAllString(path, "{$1}")` for `:([^/]*)`, modelled by the left-to-right scan ReplaceParams (the same scan serves `":$1"` at routers.go:80-83): the template is the path's segments, each rewritten at its first ':' to `{name}`, joined again with '/', and it splits back into exactly those rewritten segments |
| PathRewrite.BeegoTemplate | routers.go:80-83 | the beego rewrite with replacement `":$1"` returns every path unchanged |
| PathRewrite.BeegoRewriteIsIdentity | routers.go:80-83 | replacing each `:([^/]*)` match by ':' plus its group is the identity on every string |
| PathRewrite.RewriteBySegments | routers.go:225-229 | the left-to-right regexp rewrite equals splitting at '/', rewriting each segment at its first ':' into open + rest + close, and joining again |
| PathRewrite.RewritePreservesSegments | routers.go:225-229 | the `{$1}` rewrite keeps the number of '/' and of segments, and maps the segments one by one by the reference segment rewrite |
| PathRewrite.NoParamsUnchanged | routers.go:225-229 | a path without ':' (a static route) is left unchanged by the rewrite |
| PathRewrite.LeadingColonsAllReplaced | routers.go:225-229 | when every ':' of a path opens a segment, the gorilla/mux template holds no ':' at all |
| PathRewrite.ParamSegmentTemplate | routers.go:229 | a parameter segment `:name` becomes `{name}` |
| PathRewrite.ReplaceSlashed | routers.go:229 | a path given as its segment list is rewritten into the path of the rewritten segment list |
| Adapters.FirstRejected | routers.go:82-97 | the index where the loop panics: every earlier method is accepted, the method there is not |
| Adapters.LoadSwitched | routers.go:82-97 | registers the routes before the first unknown method once each, in table order, with their own method, path and the library's handler; panics exactly when some method is unknown, naming it, and registers nothing after |
| Adapters.LoadBeego | routers.go:79-100 | the switch-based bulk load for beego, with the `":$1"` rewrite |
| Adapters.LoadGoji | routers.go:126-145 | the switch-based bulk load for goji, with goji's panic text |
| Adapters.LoadGoRestful | routers.go:173-195 | the switch-based bulk load for go-restful |
| Adapters.LoadMacaron | routers.go:249-268 | the switch-based bulk load for macaron, registering martiniHandler |
| Adapters.LoadMartini | routers.go:300-321 | the switch-based bulk load for martini |
| Adapters.LoadSingle | routers.go:102-119 | a single loader holds exactly one registration (given method, path and handler) when the method is accepted, and otherwise panics naming the method with nothing registered |
| Adapters.LoadBeegoSingle | routers.go:102-119 | as LoadSingle, for beego |
| Adapters.LoadGojiSingle | routers.go:147-164 | as LoadSingle, for goji |
| Adapters.LoadGoRestfulSingle | routers.go:197-216 | as LoadSingle, for go-restful |
| Adapters.LoadMacaronSingle | routers.go:270-287 | as LoadSingle, for macaron |
| Adapters.LoadMartiniSingle | routers.go:323-343 | as LoadSingle, for martini |
| Adapters.LoadGorillaMux | routers.go:224-234 | never panics; registers every route in order with its own method, httpHandlerFunc, and as template the path's segments each rewritten to its brace form and joined again with '/' |
| Adapters.LoadGorillaMuxSingle | routers.go:236-240 | never panics; one route with the given handler, the path used as given (no rewrite) and any method string |
| Adapters.ReplayRecoversTable | routers.go:82-97 | reading the registration log back gives the table up to the first unknown method, and the whole table when no panic occurred |
| Adapters.LoadedInOrderDeterministic | routers.go:82-97 | two bulk loads of the same table by the same library leave the same log and the same panic |
| Adapters.AllAcceptedLoadsFully | routers.go:82-97 | a table whose methods are all accepted is registered in full without a panic |
| Revel.ParseRoutes | routers.go:416-420 | one `revel.NewRoute(method, path, "RevelController.Handle")` per table entry, in order |
| Revel.AddRoute | routers.go:425-433 | inserts the TreePath key, then for a GET route the "/HEAD"+Path key; on failure the tree holds exactly the insertions before the failing one |
| Revel.UpdateTree | routers.go:423-434 | the tree is a prefix of the insertions the routes ask for, all accepted; it panics iff the tree is not all of them, with the error of the first failing insertion |
| Revel.LoadRevel | routers.go:412-439 | the route list and the tree insertions of the two loops together |
| Revel.EntriesCount | routers.go:424-429 | a table asks for one insertion per route plus one per GET route |
| Revel.HeadFollowsTreePath | routers.go:425-428 | every HEAD key is inserted right after the TreePath key of the same GET route |
| Revel.LoadRevelSingle | routers.go:441-452 | one TreePath insertion into a fresh tree and no HEAD key; panics iff that insertion fails, with that insertion's error |
| ParseApi.ParseAPICount | parse_test.go:14-56 | the table has 26 routes |
| ParseApi.ParseAPIMethodsAccepted | parse_test.go:14-56 | every method of the table is accepted by the switch |
| ParseApi.ParseAPILoadsFully | parse_test.go:72-74 | every switch-based bulk loader registers all 26 routes in order without a panic |
| ParseApi.ParseAPIDistinct | parse_test.go:14-56 | no two routes share method and path |
| ParseApi.ParseAPIColonsLead | parse_test.go:14-56 | every ':' in the table opens a path segment |
| ParseApi.ParseAPIBraceTemplates | parse_test.go:82 | every gorilla/mux template of the table is free of ':' |
| ParseApi.ParseStaticIsRoute | parse_test.go:102 | the static request GET /1/users is a route of the table |
| ParseApi.ParseParamTargets | parse_test.go:17-19 | the table holds GET /1/classes/:className and GET /1/classes/:className/:objectId |
| ParseApi.ParseParamFits | parse_test.go:136 | /1/classes/go fills the parameter of /1/classes/:className |
| ParseApi.Parse2ParamsFits | parse_test.go:171 | /1/classes/go/123456789 fills both parameters of /1/classes/:className/:objectId |
| GPlusApi.GPlusAPICount | gplus_test.go:15-36 | the table has 13 routes |
| GPlusApi.GPlusAPIMethods | gplus_test.go:15-36 | the table uses only GET, POST and DELETE, all accepted |
| GPlusApi.GPlusAPILoadsFully | gplus_test.go:52-54 | every switch-based bulk loader registers all 13 routes in order without a panic |
| GPlusApi.GPlusAPIDistinct | gplus_test.go:15-36 | no two routes share method and path |
| GPlusApi.GPlusAPIColonsLead | gplus_test.go:15-36 | every ':' in the table opens a path segment |
| GPlusApi.GPlusAPIBraceTemplates | gplus_test.go:62 | every gorilla/mux template of the table is free of ':' |
| GPlusApi.GPlusStaticIsRoute | gplus_test.go:82 | the static request GET /people is a route of the table |
| GPlusApi.GPlusParamTargets | gplus_test.go:17-24 | the table holds GET /people/:userId and GET /people/:userId/activities/:collection |
| GPlusApi.GPlusParamFits | gplus_test.go:116 | /people/118051310819094153327 fills the parameter of /people/:userId |
| GPlusApi.GPlus2ParamsFits | gplus_test.go:150 | the two-parameter request fills both parameters of /people/:userId/activities/:collection |
| Bench.Request.constructor | bench_test.go:47 | `http.NewRequest`: the target is cut into path and raw query at the first '?', RequestURI is empty |
| Bench.SplitTarget | bench_test.go:47 | the path holds no '?'; path + "?" + query gives the target back, and a target without '?' is all path |
| Bench.RequestURIRoundTrip | bench_test.go:34 | the RequestURI built from a non-empty path and a query splits back into the same path and query |
| Bench.ServeHTTP | bench_test.go:41 | the router is handed the request as it stands and leaves it as `serve` says |
| Bench.BenchRequest | bench_test.go:30-43 | the dispatch trace is b.N dispatches of the prepared request, each with the raw query restored first; afterwards the request is the prepared one when b.N is 0 and otherwise what the router left after the last dispatch |
| Bench.RequestsLength | bench_test.go:39-42 | the loop dispatches exactly b.N times |
| Bench.RequestsRestoreQuery | bench_test.go:40 | every dispatch sees the captured raw query, whatever the router did to it |
| Bench.RequestsSteady | bench_test.go:39-42 | a router that leaves method, RequestURI and path alone is handed the same request every time |
| Bench.BenchRequestSameRequest | bench_test.go:30-43 | with such a router each of the b.N dispatches hands over the request with RequestURI set from its path and query |
| Bench.BenchRoutes | bench_test.go:45-63 | the dispatch trace is b.N passes over the table, each pass the routes in order |
| Bench.BenchRoutesTrace | bench_test.go:45-63 | the trace has b.N * len(routes) entries and entry k carries route k mod len(routes) with its method, its path as RequestURI and URL path, and an empty raw query |
| Bench.FiveBraceIsRewrite | bench_test.go:104-105 | fiveBrace is the gorilla/mux rewrite of fiveColon |
| Bench.FiveRouteFits | bench_test.go:104-106 | fiveRoute fills the five parameters of fiveColon |
| Bench.TwentyBraceIsRewrite | bench_test.go:144-145 | twentyBrace is the gorilla/mux rewrite of twentyColon |
| Bench.TwentyRouteFits | bench_test.go:144-146 | twentyRoute fills the twenty parameters of twentyColon |
| Bench.UserBraceIsRewrite | bench_test.go:76-83 | "/user/{name}" given to gorilla/mux is the rewrite of the "/user/:name" the other loaders get |
| Bench.UserRequestFits | bench_test.go:76-78 | "/user/gordon" fills the parameter of "/user/:name" |

## Left out

- What a third-party router does with a registration or a request (matching, parameter extraction, handlers): foreign code, taken as a log or a parameter.
- The general regular-expression engine: only the one pattern `:([^/]*)` is modelled, as a scan.
- calcMem, init, initBeego, initMartini, initRevel, the handlers, main and the Benchmark function bodies: memory statistics, logging set-up, timer control and console output, none of which affects the routes.
- RevelController.ServeHTTP: it runs revel's filter chain, which is foreign code.
- loadGin and loadHttpRouter: they are called by the fixtures but are not part of this model.
- The pathtree's contents: the tree is modelled by the insertions it accepted, in order; what a failed insertion leaves inside the tree is not modelled.
- Request.constructor: URL parsing is reduced to the cut at the first '?'; fragments, escaping and absolute URLs are not modelled, nor is the RequestURI escaping of `url.URL.RequestURI`, the opaque form and ForceQuery.
- Bench.ServeHTTP: a router that replaces `r.URL` by another object is not modelled; the URL object is fixed for the request's lifetime. `serve` is a plain function of the four request fields, so a router whose effect on the request depends on its own history is not modelled; the exact trace of Bench.BenchRequest relies on that, while the raw-query restore (Bench.RequestsRestoreQuery) and the dispatch count (Bench.RequestsLength) hold for any `serve`.
