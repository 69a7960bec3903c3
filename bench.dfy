/**
 * The benchmark driver: the two dispatch loops benchRequest and benchRoutes,
 * which rewrite fields of one request in place before every dispatch, and
 * the path constants of the micro-benchmarks.
 *
 * `router.ServeHTTP(w, r)` is foreign code. It is taken as a parameter
 * `serve`: given the request fields as the router sees them, it returns
 * the fields as the router leaves them. The dispatch trace of a loop is
 * the list of requests the router was handed, in call order.
 */
module Bench {
  import opened Routes
  import opened PathRewrite

  /** The request fields the loops write and the router reads. */
  datatype Snapshot = Snapshot(httpMethod: string, requestURI: string, path: string, rawQuery: string)

  /** The fields of a `*url.URL` that the loops write. */
  class Url {
    var path: string
    var rawQuery: string

    constructor (path: string, rawQuery: string)
      ensures this.path == path && this.rawQuery == rawQuery
    {
      this.path := path;
      this.rawQuery := rawQuery;
    }
  }

  /** The fields of an `*http.Request` that the loops write; `url` is the pointer `r.URL`. */
  class Request {
    var httpMethod: string
    var requestURI: string
    const url: Url

    /**
     * `http.NewRequest(method, target, nil)`: the target is parsed into a
     * path and a raw query; RequestURI stays empty on a client request.
     */
    constructor (httpMethod: string, target: string)
      ensures this.httpMethod == httpMethod && requestURI == ""
      ensures fresh(url)
      ensures (url.path, url.rawQuery) == SplitTarget(target)
    {
      this.httpMethod := httpMethod;
      requestURI := "";
      var parts := SplitTarget(target);
      url := new Url(parts.0, parts.1);
    }

    /** The fields as a router would see them now. */
    function State(): Snapshot
      reads this, url
    {
      Snapshot(httpMethod, requestURI, url.path, url.rawQuery)
    }
  }

  /** A request target cut at its first '?' into path and raw query. */
  function SplitTarget(target: string): (parts: (string, string))
    ensures '?' !in parts.0
    ensures '?' in target ==> target == parts.0 + "?" + parts.1
    ensures '?' !in target ==> parts == (target, "")
  {
    var k := IndexOf(target, '?');
    IndexOfFirst(target, '?');
    if k == |target| then (target, "")
    else
      assert target == target[..k] + "?" + target[k + 1..] by {
        assert target == target[..k] + [target[k]] + target[k + 1..];
      }
      (target[..k], target[k + 1..])
  }

  /** `u.RequestURI()` for a URL with a path and no opaque part: the path ("/" if empty), then "?" and the query if there is one. */
  function RequestURI(path: string, rawQuery: string): string {
    (if path == "" then "/" else path) + (if rawQuery == "" then "" else "?" + rawQuery)
  }

  /** A request URI built from a path and a query splits back into them. */
  lemma RequestURIRoundTrip(path: string, rawQuery: string)
    requires path != "" && '?' !in path
    ensures SplitTarget(RequestURI(path, rawQuery)) == (path, rawQuery)
  {
    var uri := RequestURI(path, rawQuery);
    if rawQuery == "" {
      assert uri == path;
    } else {
      assert uri == path + ("?" + rawQuery);
      IndexOfAtBoundary(path, "?" + rawQuery, '?');
      assert uri[..|path|] == path;
      assert uri[|path| + 1..] == rawQuery;
    }
  }

  /** One `router.ServeHTTP(w, r)`: the router is handed the request as it stands and leaves it as `serve` says. */
  method ServeHTTP(r: Request, serve: Snapshot -> Snapshot) returns (seen: Snapshot)
    modifies r, r.url
    ensures seen == old(r.State())
    ensures r.State() == serve(seen)
  {
    seen := r.State();
    var after := serve(seen);
    r.httpMethod := after.httpMethod;
    r.requestURI := after.requestURI;
    r.url.path := after.path;
    r.url.rawQuery := after.rawQuery;
  }

  // ---------------------------------------------------------------------
  // benchRequest
  // ---------------------------------------------------------------------

  /** The request after `r.RequestURI = u.RequestURI()`. */
  function Prepared(s: Snapshot): Snapshot {
    s.(requestURI := RequestURI(s.path, s.rawQuery))
  }

  /**
   * The requests the router is handed over n iterations that each restore
   * the raw query to rq and dispatch, starting from request s.
   */
  function Requests(n: nat, s: Snapshot, rq: string, serve: Snapshot -> Snapshot): seq<Snapshot>
    decreases n
  {
    if n == 0 then []
    else
      var sent := s.(rawQuery := rq);
      [sent] + Requests(n - 1, serve(sent), rq, serve)
  }

  /**
   * benchRequest: capture the raw query, set RequestURI once, then b.N
   * times restore the raw query and dispatch the same request object.
   */
  method BenchRequest(n: nat, r: Request, serve: Snapshot -> Snapshot) returns (trace: seq<Snapshot>)
    modifies r, r.url
    ensures trace == Requests(n, Prepared(old(r.State())), old(r.url.rawQuery), serve)
    ensures |trace| == n
    ensures r.State() == if n == 0 then Prepared(old(r.State())) else serve(trace[n - 1])
  {
    var u := r.url;
    var rq := u.rawQuery;
    r.requestURI := RequestURI(u.path, u.rawQuery);
    ghost var start := r.State();
    assert start == Prepared(old(r.State()));
    trace := [];
    for i := 0 to n
      invariant trace + Requests(n - i, r.State(), rq, serve) == Requests(n, start, rq, serve)
      invariant |trace| == i
      invariant i == 0 ==> r.State() == start
      invariant i > 0 ==> r.State() == serve(trace[i - 1])
    {
      ghost var before := r.State();
      u.rawQuery := rq;
      var seen := ServeHTTP(r, serve);
      assert Requests(n - i, before, rq, serve) == [seen] + Requests(n - (i + 1), r.State(), rq, serve);
      ghost var after := r.State();
      trace := trace + [seen];
      assert trace[i] == seen && after == serve(seen);
    }
  }

  lemma {:induction false} RequestsLength(n: nat, s: Snapshot, rq: string, serve: Snapshot -> Snapshot)
    ensures |Requests(n, s, rq, serve)| == n
    decreases n
  {
    if n > 0 {
      RequestsLength(n - 1, serve(s.(rawQuery := rq)), rq, serve);
    }
  }

  /** Every dispatch of benchRequest sees the raw query captured before the loop, whatever the router did to it. */
  lemma {:induction false} RequestsRestoreQuery(n: nat, s: Snapshot, rq: string, serve: Snapshot -> Snapshot)
    ensures forall i :: 0 <= i < |Requests(n, s, rq, serve)| ==> Requests(n, s, rq, serve)[i].rawQuery == rq
    decreases n
  {
    if n > 0 {
      RequestsRestoreQuery(n - 1, serve(s.(rawQuery := rq)), rq, serve);
    }
  }

  /**
   * A router that leaves method, RequestURI and path alone is handed the
   * same request n times: the prepared request with its own raw query.
   */
  lemma {:induction false} RequestsSteady(n: nat, s: Snapshot, serve: Snapshot -> Snapshot)
    requires forall x :: serve(x).httpMethod == x.httpMethod && serve(x).requestURI == x.requestURI && serve(x).path == x.path
    ensures forall i :: 0 <= i < |Requests(n, s, s.rawQuery, serve)| ==> Requests(n, s, s.rawQuery, serve)[i] == s
    decreases n
  {
    if n > 0 {
      var next := serve(s);
      assert s.(rawQuery := s.rawQuery) == s;
      assert next.(rawQuery := s.rawQuery) == s;
      assert Requests(n - 1, next, s.rawQuery, serve) == Requests(n - 1, s, s.rawQuery, serve);
      RequestsSteady(n - 1, s, serve);
    }
  }

  /**
   * So benchRequest with such a router dispatches exactly n times, each
   * time the request whose RequestURI was set from its path and query.
   */
  lemma BenchRequestSameRequest(n: nat, s: Snapshot, serve: Snapshot -> Snapshot)
    requires forall x :: serve(x).httpMethod == x.httpMethod && serve(x).requestURI == x.requestURI && serve(x).path == x.path
    ensures |Requests(n, Prepared(s), s.rawQuery, serve)| == n
    ensures forall i :: 0 <= i < n ==>
              Requests(n, Prepared(s), s.rawQuery, serve)[i] == Snapshot(s.httpMethod, RequestURI(s.path, s.rawQuery), s.path, s.rawQuery)
  {
    RequestsLength(n, Prepared(s), s.rawQuery, serve);
    RequestsSteady(n, Prepared(s), serve);
  }

  // ---------------------------------------------------------------------
  // benchRoutes
  // ---------------------------------------------------------------------

  /** The request one inner iteration of benchRoutes hands over for route, given the captured raw query rq. */
  function Dispatch(route: Route, rq: string): Snapshot {
    Snapshot(route.httpMethod, route.path, route.path, rq)
  }

  /** One pass over the table. */
  function Dispatches(routes: seq<Route>, rq: string): (ds: seq<Snapshot>)
    ensures |ds| == |routes|
  {
    if routes == [] then [] else Dispatches(routes[..|routes| - 1], rq) + [Dispatch(routes[|routes| - 1], rq)]
  }

  /** s repeated n times. */
  function Repeat<T>(s: seq<T>, n: nat): seq<T> {
    if n == 0 then [] else Repeat(s, n - 1) + s
  }

  /**
   * benchRoutes: one fresh GET "/" request; b.N times, for each route in
   * table order, overwrite method, RequestURI, path and raw query and
   * dispatch.
   */
  method BenchRoutes(n: nat, routes: seq<Route>, serve: Snapshot -> Snapshot) returns (trace: seq<Snapshot>)
    ensures trace == Repeat(Dispatches(routes, ""), n)
  {
    var r := new Request("GET", "/");
    var u := r.url;
    var rq := u.rawQuery;
    assert rq == "";
    var pass := Dispatches(routes, rq);
    trace := [];
    for i := 0 to n
      invariant trace == Repeat(pass, i)
    {
      for j := 0 to |routes|
        invariant trace == Repeat(pass, i) + Dispatches(routes[..j], rq)
      {
        var route := routes[j];
        r.httpMethod := route.httpMethod;
        r.requestURI := route.path;
        u.path := route.path;
        u.rawQuery := rq;
        var seen := ServeHTTP(r, serve);
        assert routes[..j + 1][..j] == routes[..j];
        trace := trace + [seen];
      }
      assert routes[..|routes|] == routes;
    }
  }

  lemma {:induction false} DispatchesAt(routes: seq<Route>, rq: string, j: nat)
    requires j < |routes|
    ensures Dispatches(routes, rq)[j] == Dispatch(routes[j], rq)
    decreases |routes|
  {
    if j < |routes| - 1 {
      DispatchesAt(routes[..|routes| - 1], rq, j);
    }
  }

  lemma {:induction false} RepeatLength<T>(s: seq<T>, n: nat)
    ensures |Repeat(s, n)| == n * |s|
    decreases n
  {
    if n > 0 {
      RepeatLength(s, n - 1);
      assert n * |s| == (n - 1) * |s| + |s|;
    }
  }

  lemma {:induction false} RepeatAt<T>(s: seq<T>, n: nat, i: nat, j: nat)
    requires i < n && j < |s|
    ensures i * |s| + j < |Repeat(s, n)|
    ensures Repeat(s, n)[i * |s| + j] == s[j]
    decreases n
  {
    RepeatLength(s, n);
    RepeatLength(s, n - 1);
    assert n * |s| == (n - 1) * |s| + |s|;
    if i < n - 1 {
      MulMono(i + 1, n - 1, |s|);
      assert (i + 1) * |s| == i * |s| + |s|;
      RepeatAt(s, n - 1, i, j);
    }
  }

  /**
   * The trace of benchRoutes holds b.N * len(routes) dispatches; dispatch
   * number k hands over route k mod len(routes) of the table, with its
   * method, its path as both RequestURI and URL path, and the raw query
   * of the fresh request (empty).
   */
  lemma BenchRoutesTrace(n: nat, routes: seq<Route>, trace: seq<Snapshot>)
    requires trace == Repeat(Dispatches(routes, ""), n)
    ensures |trace| == n * |routes|
    ensures forall k :: 0 <= k < |trace| ==>
              var route := routes[k % |routes|];
              trace[k] == Snapshot(route.httpMethod, route.path, route.path, "")
  {
    var d := Dispatches(routes, "");
    RepeatLength(d, n);
    forall k | 0 <= k < |trace|
      ensures var route := routes[k % |routes|];
              trace[k] == Snapshot(route.httpMethod, route.path, route.path, "")
    {
      var m := |routes|;
      var i, j := k / m, k % m;
      assert k == i * m + j;
      if i >= n {
        MulMono(n, i, m);
      }
      RepeatAt(d, n, i, j);
      DispatchesAt(routes, "", j);
    }
  }

  lemma MulMono(a: nat, b: nat, c: nat)
    requires a <= b
    ensures a * c <= b * c
  {
    assert b * c == a * c + (b - a) * c;
  }

  // ---------------------------------------------------------------------
  // Micro-benchmark paths
  // ---------------------------------------------------------------------

  /** The one-parameter micro-benchmarks: colon template, its gorilla/mux form, and the request path. */
  const UserColon: string := "/user/:name"
  const UserBrace: string := "/user/{name}"
  const UserRequest: string := "/user/gordon"

  const FiveColon: string := "/:a/:b/:c/:d/:e"
  const FiveBrace: string := "/{a}/{b}/{c}/{d}/{e}"
  const FiveRoute: string := "/test/test/test/test/test"

  /** twentyColon, twentyBrace and twentyRoute, each written as four runs of five segments. */
  const TwentyColon: string := "/:a/:b/:c/:d/:e" + "/:f/:g/:h/:i/:j" + "/:k/:l/:m/:n/:o" + "/:p/:q/:r/:s/:t"
  const TwentyBrace: string := "/{a}/{b}/{c}/{d}/{e}" + "/{f}/{g}/{h}/{i}/{j}" + "/{k}/{l}/{m}/{n}/{o}" + "/{p}/{q}/{r}/{s}/{t}"
  const TwentyRoute: string := "/a/b/c/d/e" + "/f/g/h/i/j" + "/k/l/m/n/o" + "/p/q/r/s/t"

  /** The segments of those paths, in runs of five. */
  const ColonsAE: seq<string> := [":a", ":b", ":c", ":d", ":e"]
  const ColonsFJ: seq<string> := [":f", ":g", ":h", ":i", ":j"]
  const ColonsKO: seq<string> := [":k", ":l", ":m", ":n", ":o"]
  const ColonsPT: seq<string> := [":p", ":q", ":r", ":s", ":t"]
  const BracesAE: seq<string> := ["{a}", "{b}", "{c}", "{d}", "{e}"]
  const BracesFJ: seq<string> := ["{f}", "{g}", "{h}", "{i}", "{j}"]
  const BracesKO: seq<string> := ["{k}", "{l}", "{m}", "{n}", "{o}"]
  const BracesPT: seq<string> := ["{p}", "{q}", "{r}", "{s}", "{t}"]
  const NamesAE: seq<string> := ["a", "b", "c", "d", "e"]
  const NamesFJ: seq<string> := ["f", "g", "h", "i", "j"]
  const NamesKO: seq<string> := ["k", "l", "m", "n", "o"]
  const NamesPT: seq<string> := ["p", "q", "r", "s", "t"]
  const Tests: seq<string> := ["test", "test", "test", "test", "test"]

  /** Parameter segments whose brace forms are given: the rewrite maps the one list to the other. */
  lemma ParamsTemplate(cs: seq<string>, bs: seq<string>)
    requires |cs| == |bs|
    requires forall i :: 0 <= i < |cs| ==> IsParam(cs[i]) && bs[i] == "{" + cs[i][1..] + "}"
    ensures MapTemplate(cs, "{", "}") == bs
  {
    forall i | 0 <= i < |cs| ensures MapTemplate(cs, "{", "}")[i] == bs[i] {
      MapTemplateAt(cs, i, "{", "}");
      ParamSegmentTemplate(cs[i], "{", "}");
    }
  }

  /** A colon template given by its segments is rewritten segment by segment into the brace template. */
  lemma TemplateRewrite(colon: string, brace: string, cs: seq<string>, bs: seq<string>)
    requires NoSlash(cs) && colon == Slashed(cs)
    requires MapTemplate(cs, "{", "}") == bs && brace == Slashed(bs)
    ensures GorillaTemplate(colon) == brace
  {
    ReplaceSlashed(cs, "{", "}");
  }

  lemma FiveColonSlashed()
    ensures FiveColon == Slashed(ColonsAE)
  {
  }

  lemma FiveBraceSlashed()
    ensures FiveBrace == Slashed(BracesAE)
  {
  }

  lemma FiveRouteSlashed()
    ensures FiveRoute == Slashed(Tests)
  {
  }

  lemma FiveTemplate()
    ensures MapTemplate(ColonsAE, "{", "}") == BracesAE
  {
    ParamsTemplate(ColonsAE, BracesAE);
  }

  /** fiveBrace is the brace rewrite of fiveColon. */
  lemma FiveBraceIsRewrite()
    ensures GorillaTemplate(FiveColon) == FiveBrace
  {
    FiveColonSlashed();
    FiveBraceSlashed();
    FiveTemplate();
    TemplateRewrite(FiveColon, FiveBrace, ColonsAE, BracesAE);
  }

  lemma FiveSegmentsFit()
    ensures SegmentsFit([""] + Tests, [""] + ColonsAE)
  {
  }

  lemma FiveParams()
    ensures ParamCount([""] + ColonsAE) == 5
  {
    ParamCountAppend([""], ColonsAE);
    AllParamsCount(ColonsAE);
  }

  /** fiveRoute fills the five parameters of fiveColon with non-empty segments. */
  lemma FiveRouteFits()
    ensures Fits(FiveRoute, FiveColon)
    ensures |Split(FiveRoute)| == 6 && ParamCount(Split(FiveColon)) == 5
  {
    FiveColonSlashed();
    FiveRouteSlashed();
    FiveSegmentsFit();
    FitsOfSlashed(FiveRoute, FiveColon, Tests, ColonsAE);
    SplitSlashed(ColonsAE);
    SplitSlashed(Tests);
    FiveParams();
  }

  // The runs of twentyColon, twentyBrace and twentyRoute as segment lists.

  lemma ColonsFJSlashed() ensures "/:f/:g/:h/:i/:j" == Slashed(ColonsFJ) {}
  lemma ColonsKOSlashed() ensures "/:k/:l/:m/:n/:o" == Slashed(ColonsKO) {}
  lemma ColonsPTSlashed() ensures "/:p/:q/:r/:s/:t" == Slashed(ColonsPT) {}
  lemma BracesFJSlashed() ensures "/{f}/{g}/{h}/{i}/{j}" == Slashed(BracesFJ) {}
  lemma BracesKOSlashed() ensures "/{k}/{l}/{m}/{n}/{o}" == Slashed(BracesKO) {}
  lemma BracesPTSlashed() ensures "/{p}/{q}/{r}/{s}/{t}" == Slashed(BracesPT) {}
  lemma NamesAESlashed() ensures "/a/b/c/d/e" == Slashed(NamesAE) {}
  lemma NamesFJSlashed() ensures "/f/g/h/i/j" == Slashed(NamesFJ) {}
  lemma NamesKOSlashed() ensures "/k/l/m/n/o" == Slashed(NamesKO) {}
  lemma NamesPTSlashed() ensures "/p/q/r/s/t" == Slashed(NamesPT) {}

  /** Four paths given as segment lists, put together. */
  lemma SlashedRuns(p: string, a: string, b: string, c: string, d: string,
                    sa: seq<string>, sb: seq<string>, sc: seq<string>, sd: seq<string>)
    requires a == Slashed(sa) && b == Slashed(sb) && c == Slashed(sc) && d == Slashed(sd)
    requires p == a + b + c + d
    ensures p == Slashed(sa + sb + sc + sd)
  {
    SlashedAppend(sa, sb);
    SlashedAppend(sa + sb, sc);
    SlashedAppend(sa + sb + sc, sd);
  }

  lemma TwentyColonSlashed()
    ensures TwentyColon == Slashed(ColonsAE + ColonsFJ + ColonsKO + ColonsPT)
  {
    FiveColonSlashed();
    ColonsFJSlashed();
    ColonsKOSlashed();
    ColonsPTSlashed();
    SlashedRuns(TwentyColon, FiveColon, "/:f/:g/:h/:i/:j", "/:k/:l/:m/:n/:o", "/:p/:q/:r/:s/:t",
                ColonsAE, ColonsFJ, ColonsKO, ColonsPT);
  }

  lemma TwentyBraceSlashed()
    ensures TwentyBrace == Slashed(BracesAE + BracesFJ + BracesKO + BracesPT)
  {
    FiveBraceSlashed();
    BracesFJSlashed();
    BracesKOSlashed();
    BracesPTSlashed();
    SlashedRuns(TwentyBrace, FiveBrace, "/{f}/{g}/{h}/{i}/{j}", "/{k}/{l}/{m}/{n}/{o}", "/{p}/{q}/{r}/{s}/{t}",
                BracesAE, BracesFJ, BracesKO, BracesPT);
  }

  lemma TwentyRouteSlashed()
    ensures TwentyRoute == Slashed(NamesAE + NamesFJ + NamesKO + NamesPT)
  {
    NamesAESlashed();
    NamesFJSlashed();
    NamesKOSlashed();
    NamesPTSlashed();
    SlashedRuns(TwentyRoute, "/a/b/c/d/e", "/f/g/h/i/j", "/k/l/m/n/o", "/p/q/r/s/t",
                NamesAE, NamesFJ, NamesKO, NamesPT);
  }

  lemma TemplateFJ() ensures MapTemplate(ColonsFJ, "{", "}") == BracesFJ { ParamsTemplate(ColonsFJ, BracesFJ); }
  lemma TemplateKO() ensures MapTemplate(ColonsKO, "{", "}") == BracesKO { ParamsTemplate(ColonsKO, BracesKO); }
  lemma TemplatePT() ensures MapTemplate(ColonsPT, "{", "}") == BracesPT { ParamsTemplate(ColonsPT, BracesPT); }

  /** Runs rewritten one by one are rewritten together. */
  lemma TemplateRuns(a: seq<string>, b: seq<string>, c: seq<string>, d: seq<string>,
                     ba: seq<string>, bb: seq<string>, bc: seq<string>, bd: seq<string>)
    requires MapTemplate(a, "{", "}") == ba && MapTemplate(b, "{", "}") == bb
    requires MapTemplate(c, "{", "}") == bc && MapTemplate(d, "{", "}") == bd
    ensures MapTemplate(a + b + c + d, "{", "}") == ba + bb + bc + bd
  {
    MapTemplateAppend(a, b, "{", "}");
    MapTemplateAppend(a + b, c, "{", "}");
    MapTemplateAppend(a + b + c, d, "{", "}");
  }

  lemma TwentyTemplate()
    ensures MapTemplate(ColonsAE + ColonsFJ + ColonsKO + ColonsPT, "{", "}") == BracesAE + BracesFJ + BracesKO + BracesPT
  {
    FiveTemplate();
    TemplateFJ();
    TemplateKO();
    TemplatePT();
    TemplateRuns(ColonsAE, ColonsFJ, ColonsKO, ColonsPT, BracesAE, BracesFJ, BracesKO, BracesPT);
  }

  lemma TwentyColonsNoSlash()
    ensures NoSlash(ColonsAE + ColonsFJ + ColonsKO + ColonsPT)
  {
    NoSlashAppend(ColonsAE, ColonsFJ);
    NoSlashAppend(ColonsAE + ColonsFJ, ColonsKO);
    NoSlashAppend(ColonsAE + ColonsFJ + ColonsKO, ColonsPT);
  }

  /** twentyBrace is the brace rewrite of twentyColon. */
  lemma TwentyBraceIsRewrite()
    ensures GorillaTemplate(TwentyColon) == TwentyBrace
  {
    TwentyColonSlashed();
    TwentyBraceSlashed();
    TwentyTemplate();
    TwentyColonsNoSlash();
    TemplateRewrite(TwentyColon, TwentyBrace, ColonsAE + ColonsFJ + ColonsKO + ColonsPT, BracesAE + BracesFJ + BracesKO + BracesPT);
  }

  lemma RunsFit()
    ensures SegmentsFit(NamesAE, ColonsAE) && SegmentsFit(NamesFJ, ColonsFJ)
    ensures SegmentsFit(NamesKO, ColonsKO) && SegmentsFit(NamesPT, ColonsPT)
  {
    assert SegmentsFit(NamesAE, ColonsAE) by {}
    assert SegmentsFit(NamesFJ, ColonsFJ) by {}
    assert SegmentsFit(NamesKO, ColonsKO) by {}
  }

  lemma TwentySegmentsFit()
    ensures SegmentsFit([""] + (NamesAE + NamesFJ + NamesKO + NamesPT), [""] + (ColonsAE + ColonsFJ + ColonsKO + ColonsPT))
  {
    RunsFit();
    SegmentsFitAppend(NamesAE, ColonsAE, NamesFJ, ColonsFJ);
    SegmentsFitAppend(NamesAE + NamesFJ, ColonsAE + ColonsFJ, NamesKO, ColonsKO);
    SegmentsFitAppend(NamesAE + NamesFJ + NamesKO, ColonsAE + ColonsFJ + ColonsKO, NamesPT, ColonsPT);
    assert SegmentsFit([""], [""]);
    SegmentsFitAppend([""], [""], NamesAE + NamesFJ + NamesKO + NamesPT, ColonsAE + ColonsFJ + ColonsKO + ColonsPT);
  }

  lemma FirstRunsParams()
    ensures ParamCount(ColonsAE) == 5 && ParamCount(ColonsFJ) == 5
  {
    AllParamsCount(ColonsAE);
    AllParamsCount(ColonsFJ);
  }

  lemma LastRunsParams()
    ensures ParamCount(ColonsKO) == 5 && ParamCount(ColonsPT) == 5
  {
    AllParamsCount(ColonsKO);
    AllParamsCount(ColonsPT);
  }

  lemma TwentyParams()
    ensures ParamCount([""] + (ColonsAE + ColonsFJ + ColonsKO + ColonsPT)) == 20
  {
    FirstRunsParams();
    LastRunsParams();
    ParamCountAppend(ColonsAE, ColonsFJ);
    ParamCountAppend(ColonsAE + ColonsFJ, ColonsKO);
    ParamCountAppend(ColonsAE + ColonsFJ + ColonsKO, ColonsPT);
    ParamCountAppend([""], ColonsAE + ColonsFJ + ColonsKO + ColonsPT);
  }

  lemma TwentyNamesNoSlash()
    ensures NoSlash(NamesAE + NamesFJ + NamesKO + NamesPT)
  {
    NoSlashAppend(NamesAE, NamesFJ);
    NoSlashAppend(NamesAE + NamesFJ, NamesKO);
    NoSlashAppend(NamesAE + NamesFJ + NamesKO, NamesPT);
  }

  /** twentyRoute fills the twenty parameters of twentyColon with non-empty segments. */
  lemma TwentyRouteFits()
    ensures Fits(TwentyRoute, TwentyColon)
    ensures |Split(TwentyRoute)| == 21 && ParamCount(Split(TwentyColon)) == 20
  {
    var names, colons := NamesAE + NamesFJ + NamesKO + NamesPT, ColonsAE + ColonsFJ + ColonsKO + ColonsPT;
    TwentyRouteSlashed();
    TwentyColonSlashed();
    TwentyColonsNoSlash();
    TwentyNamesNoSlash();
    TwentySegmentsFit();
    FitsOfSlashed(TwentyRoute, TwentyColon, names, colons);
    SplitSlashed(colons);
    SplitSlashed(names);
    TwentyParams();
  }

  lemma UserColonSlashed() ensures UserColon == Slashed(["user", ":name"]) {}
  lemma UserBraceSlashed() ensures UserBrace == Slashed(["user", "{name}"]) {}
  lemma UserRequestSlashed() ensures UserRequest == Slashed(["user", "gordon"]) {}

  lemma UserTemplate()
    ensures MapTemplate(["user", ":name"], "{", "}") == ["user", "{name}"]
  {
    var cs := ["user", ":name"];
    NoColonSegmentTemplate("user", "{", "}");
    ParamSegmentTemplate(":name", "{", "}");
    assert "{" + ":name"[1..] + "}" == "{name}";
    MapTemplateAt(cs, 0, "{", "}");
    MapTemplateAt(cs, 1, "{", "}");
  }

  /** The gorilla/mux single-route template "/user/{name}" is the brace rewrite of "/user/:name". */
  lemma UserBraceIsRewrite()
    ensures GorillaTemplate(UserColon) == UserBrace
  {
    UserColonSlashed();
    UserBraceSlashed();
    UserTemplate();
    TemplateRewrite(UserColon, UserBrace, ["user", ":name"], ["user", "{name}"]);
  }

  lemma UserSegmentsFit()
    ensures SegmentsFit([""] + ["user", "gordon"], [""] + ["user", ":name"])
  {
  }

  /** The one-parameter request "/user/gordon" fills the parameter of "/user/:name". */
  lemma UserRequestFits()
    ensures Fits(UserRequest, UserColon)
  {
    UserColonSlashed();
    UserRequestSlashed();
    UserSegmentsFit();
    FitsOfSlashed(UserRequest, UserColon, ["user", "gordon"], ["user", ":name"]);
  }
}
