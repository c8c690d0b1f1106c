// The route table of the HTTP gateway: a slice kept sorted longest pattern first
// (pkg/ipc/gateway.go). The sort is only known to sort.
module Gateway {
  import opened Records

  type Handler = nat

  datatype Route = Route(pattern: string, handler: Handler)

  // ---- Matching -------------------------------------------------------------

  function TrimSlash(pattern: string): string {
    if pattern != "" && pattern[|pattern| - 1] == '/' then pattern[..|pattern| - 1] else pattern
  }

  predicate PathMatches(pattern: string, path: string) {
    path == pattern || TrimSlash(pattern) + "/" <= path
  }

  // A pattern matches the paths it is a prefix of at a segment boundary.
  lemma MatchesAtBoundary(pattern: string, path: string)
    ensures PathMatches(pattern, path) <==>
      && pattern <= path
      && (path == pattern || path[|pattern|] == '/' || (pattern != "" && pattern[|pattern| - 1] == '/'))
  {
    var trimmed := TrimSlash(pattern);
    assert trimmed != pattern ==> trimmed + "/" == pattern;
    if trimmed == pattern && pattern <= path && path != pattern && path[|pattern|] == '/' {
      assert path[..|pattern| + 1] == pattern + "/";
    }
  }

  // ---- The table ------------------------------------------------------------

  type Routes = map<string, Handler>

  predicate Unique(routes: seq<Route>) {
    forall i, j :: 0 <= i < j < |routes| ==> routes[i].pattern != routes[j].pattern
  }

  predicate LongestFirst(routes: seq<Route>) {
    forall i, j :: 0 <= i < j < |routes| ==> |routes[i].pattern| >= |routes[j].pattern|
  }

  function TableOf(routes: seq<Route>): Routes {
    if routes == [] then map[]
    else TableOf(routes[1..])[routes[0].pattern := routes[0].handler]
  }

  lemma {:induction false} TableHolds(routes: seq<Route>)
    requires Unique(routes)
    ensures forall r :: r in routes ==> r.pattern in TableOf(routes) && TableOf(routes)[r.pattern] == r.handler
    ensures forall p :: p in TableOf(routes) ==> Route(p, TableOf(routes)[p]) in routes
  {
    if routes != [] {
      TableHolds(routes[1..]);
      assert routes == [routes[0]] + routes[1..];
      assert forall r :: r in routes[1..] ==> r.pattern != routes[0].pattern;
    }
  }

  // A map with exactly these routes is the table.
  lemma TableIs(routes: seq<Route>, table: Routes)
    requires Unique(routes)
    requires forall r :: r in routes ==> r.pattern in table && table[r.pattern] == r.handler
    requires forall p :: p in table ==> Route(p, table[p]) in routes
    ensures TableOf(routes) == table
  {
    TableHolds(routes);
    forall p ensures p in TableOf(routes) <==> p in table {
      if p in TableOf(routes) { assert Route(p, TableOf(routes)[p]) in routes; }
      if p in table { assert Route(p, table[p]) in routes; }
    }
  }

  // The table is determined by which routes there are.
  lemma SameRoutesSameTable(a: seq<Route>, b: seq<Route>)
    requires Unique(a) && Unique(b) && forall r :: r in a <==> r in b
    ensures TableOf(a) == TableOf(b)
  {
    TableHolds(a);
    TableIs(b, TableOf(a));
  }

  lemma TableReplaced(routes: seq<Route>, i: nat, handler: Handler)
    requires Unique(routes) && i < |routes|
    ensures var next := routes[i := Route(routes[i].pattern, handler)];
      Unique(next) && TableOf(next) == TableOf(routes)[routes[i].pattern := handler]
  {
    var next := routes[i := Route(routes[i].pattern, handler)];
    var table := TableOf(routes)[routes[i].pattern := handler];
    TableHolds(routes);
    assert forall j :: 0 <= j < |routes| ==> next[j].pattern == routes[j].pattern;
    assert next[i] in next;
    forall p | p in table && p != routes[i].pattern ensures Route(p, table[p]) in next {
      var j :| 0 <= j < |routes| && routes[j] == Route(p, table[p]);
      assert next[j] == routes[j];
    }
    TableIs(next, table);
  }

  lemma TableExtended(routes: seq<Route>, pattern: string, handler: Handler)
    requires Unique(routes) && forall j :: 0 <= j < |routes| ==> routes[j].pattern != pattern
    ensures var next := routes + [Route(pattern, handler)];
      Unique(next) && TableOf(next) == TableOf(routes)[pattern := handler]
  {
    TableHolds(routes);
    TableIs(routes + [Route(pattern, handler)], TableOf(routes)[pattern := handler]);
  }

  lemma TableShrunk(routes: seq<Route>, i: nat)
    requires Unique(routes) && i < |routes|
    ensures var next := routes[..i] + routes[i + 1..];
      Unique(next) && TableOf(next) == TableOf(routes) - {routes[i].pattern}
  {
    var next := routes[..i] + routes[i + 1..];
    TableHolds(routes);
    assert routes == routes[..i] + [routes[i]] + routes[i + 1..];
    assert forall r :: r in next ==> r in routes && r.pattern != routes[i].pattern;
    TableIs(next, TableOf(routes) - {routes[i].pattern});
  }

  lemma TwoPlaces(s: seq<Route>, i: nat, j: nat)
    requires i < j < |s| && s[i] == s[j]
    ensures multiset(s)[s[i]] >= 2
  {
    assert s == s[..i] + [s[i]] + s[i + 1..j] + [s[j]] + s[j + 1..];
  }

  lemma {:induction false} OnePlace(s: seq<Route>, r: Route)
    requires Unique(s)
    ensures multiset(s)[r] <= 1
  {
    if s != [] {
      assert s == [s[0]] + s[1..];
      OnePlace(s[1..], r);
      if r == s[0] {
        assert forall x :: x in s[1..] ==> x.pattern != r.pattern;
        assert r !in s[1..];
      }
    }
  }

  lemma PermutationIsUnique(s: seq<Route>, t: seq<Route>)
    requires Unique(s) && multiset(t) == multiset(s)
    ensures Unique(t) && forall r :: r in t <==> r in s
  {
    assert forall r :: (r in t <==> r in multiset(t)) && (r in s <==> r in multiset(s));
    forall i, j | 0 <= i < j < |t| ensures t[i].pattern != t[j].pattern {
      if t[i] == t[j] {
        TwoPlaces(t, i, j);
        OnePlace(s, t[i]);
        assert false;
      }
      assert t[i] in s && t[j] in s;
    }
  }

  // ---- Dispatch -------------------------------------------------------------

  // p is the longest registered pattern that matches.
  predicate Longest(table: Routes, path: string, p: string) {
    && p in table && PathMatches(p, path)
    && forall q :: q in table && PathMatches(q, path) ==> |q| <= |p|
  }

  // There is never a choice: matching patterns of one length are the same prefix.
  lemma LongestIsUnique(table: Routes, path: string, p: string, q: string)
    requires Longest(table, path, p) && Longest(table, path, q)
    ensures p == q
  {
    MatchesAtBoundary(p, path);
    MatchesAtBoundary(q, path);
    assert p == path[..|p|] && q == path[..|q|];
  }

  // What a request is dispatched to, as a property of the plain map.
  ghost predicate DispatchedTo(table: Routes, path: string, handler: Option<Handler>) {
    match handler
    case Some(h) => exists p :: Longest(table, path, p) && table[p] == h
    case None => forall p :: p in table ==> !PathMatches(p, path)
  }

  lemma DispatchIsAFunction(table: Routes, path: string, a: Option<Handler>, b: Option<Handler>)
    requires DispatchedTo(table, path, a) && DispatchedTo(table, path, b)
    ensures a == b
  {
    if a.Some? && b.Some? {
      var p :| Longest(table, path, p) && table[p] == a.value;
      var q :| Longest(table, path, q) && table[q] == b.value;
      LongestIsUnique(table, path, p, q);
    }
  }

  // Registering an exact path takes precedence over every other pattern.
  lemma ExactPatternWins(table: Routes, path: string, handler: Option<Handler>)
    requires path in table && DispatchedTo(table, path, handler)
    ensures handler == Some(table[path])
  {
    forall q | q in table && PathMatches(q, path) ensures |q| <= |path| { MatchesAtBoundary(q, path); }
    assert Longest(table, path, path);
    DispatchIsAFunction(table, path, handler, Some(table[path]));
  }

  // ---- The gateway ----------------------------------------------------------

  lemma InsertKeepsOrder(s: seq<Route>, i: nat, r: Route)
    requires LongestFirst(s) && i <= |s|
    requires forall j :: 0 <= j < i ==> |s[j].pattern| >= |r.pattern|
    requires i < |s| ==> |s[i].pattern| < |r.pattern|
    ensures LongestFirst(s[..i] + [r] + s[i..])
    ensures multiset(s[..i] + [r] + s[i..]) == multiset(s) + multiset{r}
  {
    assert s == s[..i] + s[i..];
    var t := s[..i] + [r] + s[i..];
    forall j, k | 0 <= j < k < |t| ensures |t[j].pattern| >= |t[k].pattern| {
      assert t[k] == if k < i then s[k] else if k == i then r else s[k - 1];
      assert t[j] == if j < i then s[j] else if j == i then r else s[j - 1];
    }
  }

  // Any sort by descending length; the order of equal lengths is its own.
  method SortLongestFirst(routes: seq<Route>) returns (sorted: seq<Route>)
    ensures LongestFirst(sorted) && multiset(sorted) == multiset(routes)
  {
    sorted := [];
    for n := 0 to |routes|
      invariant LongestFirst(sorted) && multiset(sorted) == multiset(routes[..n])
    {
      assert routes[..n + 1] == routes[..n] + [routes[n]];
      sorted := InsertByLength(sorted, routes[n]);
    }
    assert routes[..|routes|] == routes;
  }

  method InsertByLength(s: seq<Route>, r: Route) returns (t: seq<Route>)
    requires LongestFirst(s)
    ensures LongestFirst(t) && multiset(t) == multiset(s) + multiset{r}
  {
    var i := 0;
    while i < |s| && |s[i].pattern| >= |r.pattern|
      invariant i <= |s|
      invariant forall j :: 0 <= j < i ==> |s[j].pattern| >= |r.pattern|
    {
      i := i + 1;
    }
    InsertKeepsOrder(s, i, r);
    t := s[..i] + [r] + s[i..];
  }

  class Gateway {
    var routes: seq<Route>

    predicate Valid()
      reads this
    {
      Unique(routes) && LongestFirst(routes)
    }

    function Table(): Routes
      reads this
    {
      TableOf(routes)
    }

    constructor ()
      ensures Valid() && Table() == map[]
    {
      routes := [];
    }

    method Register(pattern: string, handler: Handler)
      requires Valid()
      modifies this
      ensures Valid() && Table() == old(Table())[pattern := handler]
    {
      ghost var was := routes;
      TableHolds(was);
      var i := 0;
      while i < |routes|
        invariant i <= |routes| && routes == was
        invariant forall j :: 0 <= j < i ==> routes[j].pattern != pattern
      {
        if routes[i].pattern == pattern {
          routes := routes[i := Route(pattern, handler)];
          assert forall j :: 0 <= j < |was| ==> routes[j].pattern == was[j].pattern;
          TableReplaced(was, i, handler);
          return;
        }
        i := i + 1;
      }
      var appended := routes + [Route(pattern, handler)];
      TableExtended(was, pattern, handler);
      routes := SortLongestFirst(appended);
      PermutationIsUnique(appended, routes);
      SameRoutesSameTable(appended, routes);
    }

    method Unregister(pattern: string)
      requires Valid()
      modifies this
      ensures Valid() && Table() == old(Table()) - {pattern}
    {
      ghost var was := routes;
      TableHolds(was);
      var i := 0;
      while i < |routes|
        invariant i <= |routes| && routes == was
        invariant forall j :: 0 <= j < i ==> routes[j].pattern != pattern
      {
        if routes[i].pattern == pattern {
          routes := routes[..i] + routes[i + 1..];
          TableShrunk(was, i);
          return;
        }
        i := i + 1;
      }
    }

    // The selection of ServeHTTP: the first match of the scan.
    method Select(path: string) returns (matched: Option<Handler>)
      requires Valid()
      ensures DispatchedTo(Table(), path, matched)
    {
      TableHolds(routes);
      matched := None;
      for i := 0 to |routes|
        invariant forall j :: 0 <= j < i ==> !PathMatches(routes[j].pattern, path)
      {
        if PathMatches(routes[i].pattern, path) {
          assert forall q :: q in Table() && PathMatches(q, path) ==> Route(q, Table()[q]) in routes;
          assert Longest(Table(), path, routes[i].pattern);
          return Some(routes[i].handler);
        }
      }
    }
  }
}
