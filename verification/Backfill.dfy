// The startup backfill of root_run_id over the run tree, in bounded passes
// (backfillRootRunID in pkg/db/sqlite.go). Each UPDATE reads the table as it was
// before the statement.
module Backfill {
  import opened Records

  datatype Row = Row(parent: Option<string>, root: Option<string>)

  type Table = map<string, Row>

  const MAX_PASSES := 100

  predicate Parentless(r: Row) {
    r.parent == None || r.parent == Some("")
  }

  // ---- The three statements -------------------------------------------------

  function RootParentless(t: Table): Table {
    map id | id in t :: if t[id].root == None && Parentless(t[id]) then t[id].(root := Some(id)) else t[id]
  }

  // The rows a pass updates.
  predicate Resolvable(t: Table, id: string)
    requires id in t
  {
    && t[id].root == None && !Parentless(t[id])
    && t[id].parent.value in t && t[t[id].parent.value].root.Some?
  }

  function Pass(t: Table): Table {
    map id | id in t :: if Resolvable(t, id) then t[id].(root := t[t[id].parent.value].root) else t[id]
  }

  function Affected(t: Table): set<string> {
    set id | id in t && Resolvable(t, id)
  }

  function RootStragglers(t: Table): Table {
    map id | id in t :: if t[id].root == None then t[id].(root := Some(id)) else t[id]
  }

  // ---- The reference: walking up the chain of parents -----------------------
  //
  // Told from the two columns alone: a parent column that is NULL or empty has no
  // parent to go to.

  // The rows from the first one upwards, each but the last unset and pointing at the
  // next.
  ghost predicate Ancestry(t: Table, p: seq<string>) {
    && p != []
    && (forall i :: 0 <= i < |p| ==> p[i] in t)
    && (forall i, j :: 0 <= i < j < |p| && j == i + 1 ==> Climbs(t, p[i], p[j]))
  }

  predicate Climbs(t: Table, id: string, up: string)
    requires id in t
  {
    t[id].root == None && t[id].parent == Some(up) && up != ""
  }

  // It ends at a row whose root is known without looking further.
  ghost predicate Chain(t: Table, p: seq<string>) {
    Ancestry(t, p) && Known(t, p[|p| - 1])
  }

  predicate Known(t: Table, id: string)
    requires id in t
  {
    t[id].root.Some? || t[id].parent == None || t[id].parent == Some("")
  }

  function KnownRoot(t: Table, id: string): string
    requires id in t && Known(t, id)
  {
    if t[id].root.Some? then t[id].root.value else id
  }

  // The same walk, at most n hops.
  function Walk(t: Table, id: string, n: nat): Option<string>
    requires id in t
    decreases n
  {
    if Known(t, id) then Some(KnownRoot(t, id))
    else if n == 0 || t[id].parent.value !in t then None
    else Walk(t, t[id].parent.value, n - 1)
  }

  lemma {:induction false} WalkFollowsChain(t: Table, p: seq<string>, n: nat)
    requires Chain(t, p)
    ensures Walk(t, p[0], n) == if |p| <= n + 1 then Some(KnownRoot(t, p[|p| - 1])) else None
    decreases |p|
  {
    if |p| > 1 {
      assert Climbs(t, p[0], p[1]);
      var q := p[1..];
      assert forall i :: 0 <= i < |q| ==> q[i] == p[i + 1];
      if n > 0 { WalkFollowsChain(t, q, n - 1); }
    }
  }

  lemma {:induction false} ChainOfWalk(t: Table, id: string, n: nat) returns (p: seq<string>)
    requires id in t && Walk(t, id, n).Some?
    ensures Chain(t, p) && p[0] == id && |p| <= n + 1
    decreases n
  {
    if Known(t, id) { p := [id]; }
    else {
      var q := ChainOfWalk(t, t[id].parent.value, n - 1);
      p := [id] + q;
      forall i, j | 0 <= i < j < |p| && j == i + 1 ensures Climbs(t, p[i], p[j]) {
        if i > 0 { assert p[i] == q[i - 1] && p[j] == q[j - 1]; }
      }
    }
  }

  // ---- What k passes reach --------------------------------------------------

  function Passes(t: Table, k: nat): Table {
    if k == 0 then RootParentless(t) else Pass(Passes(t, k - 1))
  }

  lemma {:induction false} PassesKeepShape(t: Table, k: nat)
    ensures Passes(t, k).Keys == t.Keys
    ensures forall id :: id in t ==> Passes(t, k)[id].parent == t[id].parent
  {
    if k > 0 { PassesKeepShape(t, k - 1); }
  }

  // After pass k, a row's root is exactly what a walk of k hops finds: the unset
  // rows within k hops are resolved, no others.
  lemma {:induction false} PassesReach(t: Table, k: nat, id: string)
    requires id in t
    ensures id in Passes(t, k) && Passes(t, k)[id] == t[id].(root := Walk(t, id, k))
  {
    PassesKeepShape(t, k);
    if k > 0 {
      PassesKeepShape(t, k - 1);
      PassesReach(t, k - 1, id);
      if !Known(t, id) && t[id].parent.value in t {
        PassesReach(t, k - 1, t[id].parent.value);
        WalkExtends(t, id, k - 1);
      }
    }
  }

  lemma {:induction false} WalkExtends(t: Table, id: string, n: nat)
    requires id in t
    ensures Walk(t, id, n).Some? ==> Walk(t, id, n + 1) == Walk(t, id, n)
    decreases n
  {
    if !Known(t, id) && n > 0 && t[id].parent.value in t { WalkExtends(t, t[id].parent.value, n - 1); }
  }

  // A pass that changes nothing is the last one that could.
  lemma {:induction false} FixpointStays(t: Table, k: nat, m: nat)
    requires Affected(Passes(t, k)) == {} && k <= m
    ensures Passes(t, m) == Passes(t, k)
  {
    if k < m {
      FixpointStays(t, k, m - 1);
      var q := Passes(t, k);
      forall id | id in q ensures Pass(q)[id] == q[id] { assert id !in Affected(q); }
    }
  }

  function Backfilled(t: Table): Table {
    RootStragglers(Passes(t, MAX_PASSES))
  }

  // ---- The loop -------------------------------------------------------------

  class RunsTable {
    var runs: Table

    method BackfillRootRunID()
      modifies this
      ensures runs == Backfilled(old(runs))
    {
      runs := RootParentless(runs);
      var i := 0;
      while i < MAX_PASSES
        invariant i <= MAX_PASSES && runs == Passes(old(runs), i)
      {
        var n := |Affected(runs)|;
        if n == 0 {
          FixpointStays(old(runs), i, MAX_PASSES);
          break;
        }
        runs := Pass(runs);
        i := i + 1;
      }
      assert runs == Passes(old(runs), MAX_PASSES);
      runs := RootStragglers(runs);
    }
  }

  // ---- What it guarantees ---------------------------------------------------

  // On any parent graph: only unset roots change and none is left unset. A row
  // whose ancestry reaches, within 100 hops, a row with a root gets that root; one
  // whose ancestry reaches an unset row without a parent gets that row; any other
  // becomes its own root.
  lemma BackfillIsAncestorWalk(t: Table, id: string)
    requires id in t
    ensures id in Backfilled(t) && Backfilled(t)[id].parent == t[id].parent && Backfilled(t)[id].root.Some?
    ensures t[id].root.Some? ==> Backfilled(t)[id] == t[id]
    ensures forall p :: Ancestry(t, p) && p[0] == id && |p| <= 101 ==>
      var top := t[p[|p| - 1]];
      && (top.root.Some? ==> Backfilled(t)[id].root == top.root)
      && (top.root == None && (top.parent == None || top.parent == Some("")) ==>
            Backfilled(t)[id].root == Some(p[|p| - 1]))
    ensures (forall p :: Ancestry(t, p) && p[0] == id && |p| <= 101 ==>
               var top := t[p[|p| - 1]]; top.root == None && top.parent != None && top.parent != Some("")) ==>
      Backfilled(t)[id].root == Some(id)
    ensures Backfilled(t).Keys == t.Keys
  {
    PassesKeepShape(t, MAX_PASSES);
    PassesReach(t, MAX_PASSES, id);
    forall p | Ancestry(t, p) && p[0] == id && |p| <= MAX_PASSES + 1 && Known(t, p[|p| - 1])
      ensures Walk(t, id, MAX_PASSES) == Some(KnownRoot(t, p[|p| - 1]))
    {
      assert Chain(t, p);
      WalkFollowsChain(t, p, MAX_PASSES);
    }
    if Walk(t, id, MAX_PASSES).Some? { var p := ChainOfWalk(t, id, MAX_PASSES); }
  }

  // The next startup changes nothing.
  lemma BackfillIsIdempotent(t: Table)
    ensures Backfilled(Backfilled(t)) == Backfilled(t)
  {
    var b := Backfilled(t);
    PassesKeepShape(t, MAX_PASSES);
    PassesKeepShape(b, MAX_PASSES);
    forall id | id in b ensures Backfilled(b)[id] == b[id] {
      BackfillIsAncestorWalk(t, id);
      BackfillIsAncestorWalk(b, id);
    }
  }

  // Rows whose unset parents never lead anywhere else, a parent cycle for
  // instance, each become their own root.
  lemma ClosedGroupSelfRoots(t: Table, group: set<string>, id: string)
    requires id in group && group <= t.Keys
    requires forall x :: x in group ==>
      t[x].root == None && t[x].parent.Some? && t[x].parent.value != "" && t[x].parent.value in group
    ensures id in Backfilled(t) && Backfilled(t)[id].root == Some(id)
  {
    PassesReach(t, MAX_PASSES, id);
    NoWayOut(t, group, id, MAX_PASSES);
  }

  lemma {:induction false} NoWayOut(t: Table, group: set<string>, id: string, n: nat)
    requires id in group && group <= t.Keys
    requires forall x :: x in group ==>
      t[x].root == None && t[x].parent.Some? && t[x].parent.value != "" && t[x].parent.value in group
    ensures Walk(t, id, n) == None
    decreases n
  {
    if n > 0 { NoWayOut(t, group, t[id].parent.value, n - 1); }
  }
}
