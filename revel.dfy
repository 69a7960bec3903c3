/**
 * The Revel adapter: loadRevel builds revel routes from the table and then
 * inserts their keys into a path tree, panicking on the first insertion
 * that fails; loadRevelSingle inserts one key.
 *
 * `revel.NewRoute` and `pathtree.Tree.Add` are foreign code and are taken as
 * parameters: `newRoute(method, path, action)` stands for the route the
 * library builds, and `add(tree, entry)` for the outcome of inserting entry
 * into a tree that already holds `tree` (None on success, Some(err) for the
 * error returned). The tree itself is modelled by the entries successfully
 * inserted into it, in insertion order.
 */
module Revel {
  import opened Routes

  /** The fields of a `*revel.Route` that the loader reads. */
  datatype RevelRoute = RevelRoute(httpMethod: string, path: string, treePath: string, action: string)

  /** One `Tree.Add(key, route)` call. */
  datatype Entry = Entry(key: string, route: RevelRoute)

  /** The action every bulk-loaded route points to. */
  const HandleAction: string := "RevelController.Handle"

  /** The key prefix under which GET routes also answer HEAD requests. */
  const HeadPrefix: string := "/HEAD"

  /** The insertions one route asks for: its TreePath, then "/HEAD" + Path for a GET route. */
  function RouteEntries(r: RevelRoute): seq<Entry> {
    [Entry(r.treePath, r)] + (if r.httpMethod == "GET" then [Entry(HeadPrefix + r.path, r)] else [])
  }

  /** The insertions of a whole route list, in list order. */
  function Entries(rs: seq<RevelRoute>): seq<Entry> {
    if rs == [] then [] else RouteEntries(rs[0]) + Entries(rs[1..])
  }

  /** Number of GET routes. */
  function GetCount(rs: seq<RevelRoute>): nat {
    if rs == [] then 0 else (if rs[0].httpMethod == "GET" then 1 else 0) + GetCount(rs[1..])
  }

  /** A route list asks for one insertion per route plus one per GET route. */
  lemma {:induction false} EntriesCount(rs: seq<RevelRoute>)
    ensures |Entries(rs)| == |rs| + GetCount(rs)
    decreases |rs|
  {
    if rs != [] {
      EntriesCount(rs[1..]);
    }
  }

  /** The insertions from the i-th route on: that route's own, then those of the routes after it. */
  lemma EntriesFrom(rs: seq<RevelRoute>, i: nat)
    requires i < |rs|
    ensures Entries(rs[i..]) == RouteEntries(rs[i]) + Entries(rs[i + 1..])
  {
    assert rs[i..][1..] == rs[i + 1..];
  }

  /** Every insertion of a GET route's HEAD key is immediately preceded by the same route's TreePath key. */
  lemma {:induction false} HeadFollowsTreePath(rs: seq<RevelRoute>, j: nat)
    requires j < |Entries(rs)|
    requires Entries(rs)[j].key == HeadPrefix + Entries(rs)[j].route.path
    requires Entries(rs)[j].route.treePath != HeadPrefix + Entries(rs)[j].route.path
    ensures j > 0 && Entries(rs)[j - 1] == Entry(Entries(rs)[j].route.treePath, Entries(rs)[j].route)
    ensures Entries(rs)[j].route.httpMethod == "GET"
    decreases |rs|
  {
    var own := RouteEntries(rs[0]);
    if j >= |own| {
      HeadFollowsTreePath(rs[1..], j - |own|);
    } else {
      assert j == 1;
    }
  }

  /**
   * True when the insertions in tree were all accepted, each by the tree
   * holding exactly the insertions before it.
   */
  predicate AllAdded(add: (seq<Entry>, Entry) -> Option<string>, tree: seq<Entry>) {
    forall j :: 0 <= j < |tree| ==> add(tree[..j], tree[j]).None?
  }

  /** An insertion the tree accepts extends the run of accepted insertions. */
  lemma AllAddedExtend(add: (seq<Entry>, Entry) -> Option<string>, tree: seq<Entry>, e: Entry)
    requires AllAdded(add, tree) && add(tree, e).None?
    ensures AllAdded(add, tree + [e])
  {
    var t := tree + [e];
    forall j | 0 <= j < |t| ensures add(t[..j], t[j]).None? {
      if j < |tree| {
        assert t[..j] == tree[..j];
      } else {
        assert t[..j] == tree;
      }
    }
  }

  /**
   * loadRevel: build the route list with `revel.NewRoute` in table order,
   * then insert each route's keys into a fresh tree, panicking with the
   * error of the first insertion that fails. A HEAD key is attempted only
   * after its route's TreePath key went in.
   */
  method LoadRevel(routes: seq<Route>, newRoute: (string, string, string) -> RevelRoute,
                   add: (seq<Entry>, Entry) -> Option<string>)
    returns (rs: seq<RevelRoute>, tree: seq<Entry>, panic: Option<string>)
    ensures |rs| == |routes|
    ensures forall i :: 0 <= i < |routes| ==> rs[i] == newRoute(routes[i].httpMethod, routes[i].path, HandleAction)
    ensures tree <= Entries(rs) && AllAdded(add, tree)
    ensures panic.None? <==> tree == Entries(rs)
    ensures panic.Some? ==> |tree| < |Entries(rs)| && add(tree, Entries(rs)[|tree|]) == panic
  {
    rs := ParseRoutes(routes, newRoute);
    tree, panic := UpdateTree(rs, add);
  }

  /** The first loop of loadRevel: one `revel.NewRoute` per table entry, appended in order. */
  method ParseRoutes(routes: seq<Route>, newRoute: (string, string, string) -> RevelRoute)
    returns (rs: seq<RevelRoute>)
    ensures |rs| == |routes|
    ensures forall i :: 0 <= i < |routes| ==> rs[i] == newRoute(routes[i].httpMethod, routes[i].path, HandleAction)
  {
    rs := [];
    for i := 0 to |routes|
      invariant |rs| == i
      invariant forall j :: 0 <= j < i ==> rs[j] == newRoute(routes[j].httpMethod, routes[j].path, HandleAction)
    {
      rs := rs + [newRoute(routes[i].httpMethod, routes[i].path, HandleAction)];
    }
  }

  /**
   * The second loop of loadRevel: insert each route's keys in turn and stop
   * with the error of the first insertion that fails.
   */
  method UpdateTree(rs: seq<RevelRoute>, add: (seq<Entry>, Entry) -> Option<string>)
    returns (tree: seq<Entry>, panic: Option<string>)
    ensures tree <= Entries(rs) && AllAdded(add, tree)
    ensures panic.None? <==> tree == Entries(rs)
    ensures panic.Some? ==> |tree| < |Entries(rs)| && add(tree, Entries(rs)[|tree|]) == panic
  {
    tree := [];
    var i := 0;
    assert rs[i..] == rs;
    while i < |rs|
      invariant 0 <= i <= |rs|
      invariant Entries(rs) == tree + Entries(rs[i..])
      invariant AllAdded(add, tree)
    {
      ghost var before, own, rest := tree, RouteEntries(rs[i]), Entries(rs[i + 1..]);
      EntriesFrom(rs, i);
      var err;
      tree, err := AddRoute(tree, rs[i], add);
      if err.Some? {
        StoppedWithin(Entries(rs), before, own, rest, tree);
        panic := err;
        return;
      }
      assert Entries(rs) == tree + rest;
      i := i + 1;
    }
    assert rs[i..] == [];
    panic := None;
  }

  /**
   * Within the insertions whole == before + own + rest, a tree that holds
   * before and part of own is a proper prefix, followed in whole by the
   * next entry of own.
   */
  lemma StoppedWithin(whole: seq<Entry>, before: seq<Entry>, own: seq<Entry>, rest: seq<Entry>, tree: seq<Entry>)
    requires whole == before + own + rest
    requires |before| <= |tree| < |before| + |own|
    requires tree == before + own[..|tree| - |before|]
    ensures tree <= whole && |tree| < |whole| && tree != whole
    ensures whole[|tree|] == own[|tree| - |before|]
  {
    assert whole[..|tree|] == tree;
  }

  /**
   * One iteration of that loop: `Tree.Add(r.TreePath, r)` and, if it
   * succeeded and r is a GET route, `Tree.Add("/HEAD" + r.Path, r)`. On
   * failure the tree holds the insertions that went in before it.
   */
  method AddRoute(tree: seq<Entry>, r: RevelRoute, add: (seq<Entry>, Entry) -> Option<string>)
    returns (tree': seq<Entry>, err: Option<string>)
    requires AllAdded(add, tree)
    ensures AllAdded(add, tree')
    ensures err.None? ==> tree' == tree + RouteEntries(r)
    ensures err.Some? ==>
              && |tree| <= |tree'| < |tree| + |RouteEntries(r)|
              && tree' == tree + RouteEntries(r)[..|tree'| - |tree|]
              && add(tree', RouteEntries(r)[|tree'| - |tree|]) == err
  {
    var main, head := Entry(r.treePath, r), Entry(HeadPrefix + r.path, r);
    tree' := tree;
    err := add(tree', main);
    if err.None? {
      AllAddedExtend(add, tree', main);
      tree' := tree' + [main];
      if r.httpMethod == "GET" {
        err := add(tree', head);
        if err.None? {
          AllAddedExtend(add, tree', head);
          tree' := tree' + [head];
        }
      }
    }
  }

  /**
   * loadRevelSingle: one route, whose TreePath key alone is inserted into a
   * fresh tree (no HEAD key, even for GET); a failed insertion panics.
   */
  function LoadRevelSingle(httpMethod: string, path: string, action: string,
                           newRoute: (string, string, string) -> RevelRoute,
                           add: (seq<Entry>, Entry) -> Option<string>): (router: Load<seq<Entry>>)
    ensures router.Aborted() <==> add([], Entry(newRoute(httpMethod, path, action).treePath, newRoute(httpMethod, path, action))).Some?
    ensures router.Aborted() ==> router.router == []
    ensures router.Aborted() ==> router.panic == add([], Entry(newRoute(httpMethod, path, action).treePath, newRoute(httpMethod, path, action)))
    ensures !router.Aborted() ==> router.router == [Entry(newRoute(httpMethod, path, action).treePath, newRoute(httpMethod, path, action))]
  {
    var route := newRoute(httpMethod, path, action);
    var entry := Entry(route.treePath, route);
    match add([], entry)
    case Some(err) => Load([], Some(err))
    case None => Load([entry], None)
  }
}
