// Keyset pagination of the audit log (pkg/audit/audit.go). Timestamps are the
// stored texts and compare as texts; the calendar behind them is a parameter.
module AuditPaging {
  import opened Strings

  // ---- Text order -----------------------------------------------------------

  predicate Less(a: string, b: string) {
    b != "" && (a == "" || a[0] < b[0] || (a[0] == b[0] && Less(a[1..], b[1..])))
  }

  lemma {:induction false} LessIsTotal(a: string, b: string)
    ensures !(Less(a, b) && Less(b, a))
    ensures !Less(a, b) && !Less(b, a) <==> a == b
  {
    if a != "" && b != "" && a[0] == b[0] {
      LessIsTotal(a[1..], b[1..]);
      assert a == [a[0]] + a[1..] && b == [b[0]] + b[1..];
    }
  }

  lemma {:induction false} LessIsTransitive(a: string, b: string, c: string)
    requires Less(a, b) && Less(b, c)
    ensures Less(a, c)
  {
    if a != "" && a[0] == b[0] == c[0] { LessIsTransitive(a[1..], b[1..], c[1..]); }
  }

  // It is the order of a dictionary, by code point: at the first difference the
  // smaller character, or the end of the text, comes first.
  lemma {:induction false} LessIsDictionary(a: string, b: string, n: nat)
    requires n <= |a| && n <= |b| && a[..n] == b[..n] && (n < |a| && n < |b| ==> a[n] != b[n])
    ensures Less(a, b) <==> n < |b| && (n == |a| || a[n] < b[n])
  {
    if n > 0 {
      assert a[0] == a[..n][0] == b[..n][0] == b[0];
      assert a[1..][..n - 1] == a[..n][1..] == b[..n][1..] == b[1..][..n - 1];
      LessIsDictionary(a[1..], b[1..], n - 1);
    }
  }

  // ---- Rows and the layout of their timestamps ------------------------------

  datatype Row = Row(id: string, ts: string, eventType: string, actor: string, target: string)

  type Table = seq<Row>

  // Instants are nanoseconds since the zero time; an unparseable text reads as
  // the zero time.
  datatype Layout = Layout(text: nat -> string, parse: string -> nat)

  const MILLISECOND := 1_000_000

  function ToMillisecond(t: nat): nat { t - t % MILLISECOND }

  // The layout prints to the millisecond, never prints a '|', and reads back
  // what it printed.
  ghost predicate Faithful(l: Layout) {
    forall t: nat ::
      && '|' !in l.text(t)
      && l.text(ToMillisecond(t)) == l.text(t)
      && l.parse(l.text(t)) == ToMillisecond(t)
  }

  // Written by Append: the id is filled in and the timestamp is in the layout.
  predicate Stored(l: Layout, r: Row) {
    r.id != "" && l.text(l.parse(r.ts)) == r.ts
  }

  // The id is the primary key.
  predicate Keyed(rows: Table) {
    forall i, j :: 0 <= i < j < |rows| ==> rows[i].id != rows[j].id
  }

  // a is listed before b.
  predicate Ahead(a: (string, string), b: (string, string), ascending: bool) {
    if ascending then Less(a.0, b.0) || (a.0 == b.0 && Less(a.1, b.1))
    else Less(b.0, a.0) || (a.0 == b.0 && Less(b.1, a.1))
  }

  function KeyOf(r: Row): (string, string) { (r.ts, r.id) }

  lemma AheadIsTotal(a: (string, string), b: (string, string), ascending: bool)
    ensures !(Ahead(a, b, ascending) && Ahead(b, a, ascending))
    ensures !Ahead(a, b, ascending) && !Ahead(b, a, ascending) <==> a == b
  {
    LessIsTotal(a.0, b.0);
    LessIsTotal(a.1, b.1);
  }

  lemma AheadIsTransitive(a: (string, string), b: (string, string), c: (string, string), ascending: bool)
    requires Ahead(a, b, ascending) && Ahead(b, c, ascending)
    ensures Ahead(a, c, ascending)
  {
    if ascending {
      if Less(a.0, b.0) && Less(b.0, c.0) { LessIsTransitive(a.0, b.0, c.0); }
      if Less(a.1, b.1) && Less(b.1, c.1) { LessIsTransitive(a.1, b.1, c.1); }
    } else {
      if Less(b.0, a.0) && Less(c.0, b.0) { LessIsTransitive(c.0, b.0, a.0); }
      if Less(b.1, a.1) && Less(c.1, b.1) { LessIsTransitive(c.1, b.1, a.1); }
    }
  }

  predicate Listed(s: seq<Row>, ascending: bool) {
    forall i, j :: 0 <= i < j < |s| ==> Ahead(KeyOf(s[i]), KeyOf(s[j]), ascending)
  }

  // ---- Filters and cursors --------------------------------------------------

  datatype Cursor = Cursor(ts: nat, id: string)

  const NO_CURSOR := Cursor(0, "")

  function CursorOf(l: Layout, r: Row): Cursor { Cursor(l.parse(r.ts), r.id) }

  datatype Filter = Filter(
    target: string, actor: string, eventType: string, limit: int, offset: int, after: Cursor, ascending: bool)

  const DEFAULT_LIMIT := 100
  const MAX_LIMIT := 1000

  function Limit(f: Filter): nat {
    if f.limit <= 0 then DEFAULT_LIMIT else if f.limit > MAX_LIMIT then MAX_LIMIT else f.limit
  }

  // The offset counts only without a cursor.
  function Offset(f: Filter): nat {
    if f.after != NO_CURSOR || f.offset < 0 then 0 else f.offset
  }

  predicate Selected(r: Row, f: Filter) {
    && (f.target == "" || r.target == f.target)
    && (f.actor == "" || r.actor == f.actor)
    && (f.eventType == "" || r.eventType == f.eventType)
  }

  predicate Wanted(l: Layout, r: Row, f: Filter) {
    Selected(r, f) && (f.after != NO_CURSOR ==> Ahead((l.text(f.after.ts), f.after.id), KeyOf(r), f.ascending))
  }

  // s is everything the filter wants, in order.
  ghost predicate Lists(l: Layout, s: seq<Row>, rows: Table, f: Filter) {
    Listed(s, f.ascending) && forall r :: r in s <==> r in rows && Wanted(l, r, f)
  }

  function Slice(s: seq<Row>, offset: nat, limit: nat): seq<Row> {
    if offset >= |s| then [] else if |s| - offset <= limit then s[offset..] else s[offset..offset + limit]
  }

  ghost predicate IsPage(l: Layout, page: seq<Row>, rows: Table, f: Filter) {
    exists s :: Lists(l, s, rows, f) && page == Slice(s, Offset(f), Limit(f))
  }

  // ---- The statement sent to the database -----------------------------------

  datatype Clause =
    | TargetIs(target: string)
    | ActorIs(actor: string)
    | TypeIs(eventType: string)
    | Beyond(key: (string, string), ascending: bool)

  predicate Holds(c: Clause, r: Row) {
    match c
    case TargetIs(s) => r.target == s
    case ActorIs(s) => r.actor == s
    case TypeIs(s) => r.eventType == s
    case Beyond(key, ascending) => Ahead(key, KeyOf(r), ascending)
  }

  predicate AllHold(where: seq<Clause>, r: Row) {
    forall c :: c in where ==> Holds(c, r)
  }

  lemma AllHoldAppended(where: seq<Clause>, c: Clause)
    ensures forall r :: AllHold(where + [c], r) <==> AllHold(where, r) && Holds(c, r)
  {
    assert forall d :: d in where + [c] <==> d in where || d == c;
  }

  function Where(rows: Table, where: seq<Clause>): (s: seq<Row>)
    ensures forall r :: r in s <==> r in rows && AllHold(where, r)
    ensures Keyed(rows) ==> Keyed(s)
  {
    if rows == [] then []
    else
      var rest := Where(rows[1..], where);
      assert rows == [rows[0]] + rows[1..];
      assert Keyed(rows) ==> Keyed(rows[1..]) && forall r :: r in rows[1..] ==> r.id != rows[0].id;
      if AllHold(where, rows[0]) then [rows[0]] + rest else rest
  }

  function InsertRow(s: seq<Row>, r: Row, ascending: bool): (t: seq<Row>)
    requires Listed(s, ascending)
    requires forall x :: x in s ==> x.id != r.id
    ensures Listed(t, ascending)
    ensures forall x :: x in t <==> x == r || x in s
  {
    if s == [] then [r]
    else
      assert s == [s[0]] + s[1..];
      AheadIsTotal(KeyOf(r), KeyOf(s[0]), ascending);
      if Ahead(KeyOf(r), KeyOf(s[0]), ascending) then
        (PrependKeepsOrder(s, r, ascending); [r] + s)
      else
        var rest := InsertRow(s[1..], r, ascending);
        assert forall j :: 0 <= j < |rest| ==> rest[j] in rest;
        assert forall x :: x in s[1..] ==> Ahead(KeyOf(s[0]), KeyOf(x), ascending);
        [s[0]] + rest
  }

  lemma PrependKeepsOrder(s: seq<Row>, r: Row, ascending: bool)
    requires s != [] && Listed(s, ascending) && Ahead(KeyOf(r), KeyOf(s[0]), ascending)
    ensures Listed([r] + s, ascending)
  {
    forall j | 0 < j < |s| ensures Ahead(KeyOf(r), KeyOf(s[j]), ascending) {
      AheadIsTransitive(KeyOf(r), KeyOf(s[0]), KeyOf(s[j]), ascending);
    }
  }

  function OrderBy(rows: seq<Row>, ascending: bool): (s: seq<Row>)
    requires Keyed(rows)
    ensures Listed(s, ascending)
    ensures forall r :: r in s <==> r in rows
  {
    if rows == [] then []
    else
      assert rows == [rows[0]] + rows[1..];
      InsertRow(OrderBy(rows[1..], ascending), rows[0], ascending)
  }

  // ---- The list, in columns --------------------------------------------------

  ghost predicate AskedForInColumns(l: Layout, s: seq<Row>, rows: Table, f: Filter) {
    && (forall r :: r in s <==>
          && r in rows
          && (f.target == "" || r.target == f.target)
          && (f.actor == "" || r.actor == f.actor)
          && (f.eventType == "" || r.eventType == f.eventType)
          && (f.after.ts != 0 || f.after.id != "" ==>
                InOrder(l.text(f.after.ts), f.after.id, r.ts, r.id, f.ascending)))
    && (forall i, j :: 0 <= i < j < |s| ==> InOrder(s[i].ts, s[i].id, s[j].ts, s[j].id, f.ascending))
  }

  // By timestamp, then by id, both upwards or both downwards.
  predicate InOrder(ts: string, id: string, ts': string, id': string, ascending: bool) {
    if ts != ts' then (if ascending then Less(ts, ts') else Less(ts', ts))
    else if ascending then Less(id, id')
    else Less(id', id)
  }

  // page is what s holds from position from on, at most size of it.
  predicate IsRunOf(page: seq<Row>, s: seq<Row>, from: nat, size: nat) {
    && |page| == (if |s| <= from then 0 else if |s| - from < size then |s| - from else size)
    && forall i :: 0 <= i < |page| ==> page[i] == s[from + i]
  }

  lemma SliceIsRun(s: seq<Row>, from: nat, size: nat)
    ensures IsRunOf(Slice(s, from, size), s, from, size)
  {
  }

  lemma ListsInColumns(l: Layout, s: seq<Row>, rows: Table, f: Filter)
    ensures Lists(l, s, rows, f) <==> AskedForInColumns(l, s, rows, f)
  {
    forall a: (string, string), b: (string, string)
      ensures Ahead(a, b, f.ascending) <==> InOrder(a.0, a.1, b.0, b.1, f.ascending)
    {
      LessIsTotal(a.0, b.0);
    }
  }

  // ---- The store ------------------------------------------------------------

  class Store {
    const layout: Layout
    var rows: Table

    constructor (layout: Layout)
      ensures this.layout == layout && rows == []
    {
      this.layout := layout;
      rows := [];
    }

    // at is the event's timestamp, zero when unset; freshId a new UUID.
    method Append(ev: Row, at: nat, freshId: string, now: nat) returns (ok: bool)
      requires Keyed(rows) && Faithful(layout) && freshId != ""
      modifies this`rows
      ensures Keyed(rows)
      ensures ok <==> forall r :: r in old(rows) ==> r.id != if ev.id == "" then freshId else ev.id
      ensures !ok ==> rows == old(rows)
      ensures ok ==>
        && |rows| == |old(rows)| + 1 && rows[..|old(rows)|] == old(rows)
        && var r := rows[|old(rows)|];
          && Stored(layout, r)
          && (var t := if at == 0 then now else at; layout.parse(r.ts) == t - t % 1_000_000)
          && (ev.id != "" ==> r.id == ev.id)
          && (r.eventType, r.actor, r.target) == (ev.eventType, ev.actor, ev.target)
    {
      var row := ev;
      if row.id == "" { row := row.(id := freshId); }
      var ts := at;
      if ts == 0 { ts := now; }
      row := row.(ts := layout.text(ts));
      ok := forall r :: r in rows ==> r.id != row.id;
      if ok { rows := rows + [row]; }
    }

    // The WHERE clause of the statement.
    method Conditions(f: Filter) returns (where: seq<Clause>)
      ensures forall r :: AllHold(where, r) <==> Wanted(layout, r, f)
    {
      where := [];
      if f.target != "" {
        AllHoldAppended(where, TargetIs(f.target));
        where := where + [TargetIs(f.target)];
      }
      if f.actor != "" {
        AllHoldAppended(where, ActorIs(f.actor));
        where := where + [ActorIs(f.actor)];
      }
      if f.eventType != "" {
        AllHoldAppended(where, TypeIs(f.eventType));
        where := where + [TypeIs(f.eventType)];
      }
      assert forall r :: AllHold(where, r) <==> Selected(r, f);
      if f.after != NO_CURSOR {
        AllHoldAppended(where, Beyond((layout.text(f.after.ts), f.after.id), f.ascending));
        where := where + [Beyond((layout.text(f.after.ts), f.after.id), f.ascending)];
      }
    }

    method Query(f: Filter) returns (events: seq<Row>)
      requires Keyed(rows)
      ensures IsPage(layout, events, rows, f)
      // The page is the run of at most 1000, by default 100, of the rows asked for that
      // starts at the offset; an offset counts without a cursor only.
      ensures
        var size := if f.limit <= 0 then 100 else if f.limit > 1000 then 1000 else f.limit;
        var from := if f.after.ts == 0 && f.after.id == "" && f.offset > 0 then f.offset else 0;
        exists s :: AskedForInColumns(layout, s, rows, f) && IsRunOf(events, s, from, size)
    {
      var limit := f.limit;
      if limit <= 0 { limit := DEFAULT_LIMIT; }
      if limit > MAX_LIMIT { limit := MAX_LIMIT; }
      var offset := f.offset;
      if offset < 0 { offset := 0; }
      var where := Conditions(f);
      var listed := OrderBy(Where(rows, where), f.ascending);
      assert Lists(layout, listed, rows, f);
      ListsInColumns(layout, listed, rows, f);
      SliceIsRun(listed, offset, limit);
      SliceIsRun(listed, 0, limit);
      if f.after == NO_CURSOR {
        events := Slice(listed, offset, limit);
      } else {
        events := Slice(listed, 0, limit);
      }
    }
  }

  // ---- One page -------------------------------------------------------------

  function Last(s: seq<Row>): Row
    requires s != []
  {
    s[|s| - 1]
  }

  lemma PageFacts(l: Layout, page: seq<Row>, rows: Table, f: Filter)
    requires IsPage(l, page, rows, f) && Offset(f) == 0
    ensures Listed(page, f.ascending) && |page| <= Limit(f)
    ensures forall r :: r in page ==> r in rows && Wanted(l, r, f)
    ensures forall r :: r in rows && Wanted(l, r, f) ==>
      r in page || (|page| == Limit(f) && Ahead(KeyOf(Last(page)), KeyOf(r), f.ascending))
  {
    var s :| Lists(l, s, rows, f) && page == Slice(s, Offset(f), Limit(f));
    assert page <= s;
    assert forall r :: r in page ==> r in s;
    assert forall i :: 0 <= i < |page| ==> s[i] in page;
    forall r | r in s && r !in page
      ensures |page| == Limit(f) && Ahead(KeyOf(Last(page)), KeyOf(r), f.ascending)
    {
      var i :| 0 <= i < |s| && s[i] == r;
    }
  }

  // Resuming after a row that Append wrote asks for exactly the rows behind it,
  // and only rows in the layout have that property.
  lemma CursorResumesExactly(l: Layout, row: Row, ascending: bool)
    requires row.id != ""
    ensures Stored(l, row) <==>
      forall x :: Wanted(l, x, Filter("", "", "", 0, 0, CursorOf(l, row), ascending))
             <==> Ahead(KeyOf(row), KeyOf(x), ascending)
  {
    var f := Filter("", "", "", 0, 0, CursorOf(l, row), ascending);
    var reread := row.(ts := l.text(l.parse(row.ts)));
    if !Stored(l, row) {
      AheadIsTotal(KeyOf(row), KeyOf(reread), ascending);
      AheadIsTotal(KeyOf(row), KeyOf(row), ascending);
      AheadIsTotal(KeyOf(reread), KeyOf(reread), ascending);
      assert Wanted(l, row, f) == Ahead(KeyOf(reread), KeyOf(row), ascending);
      assert Wanted(l, reread, f) == Ahead(KeyOf(reread), KeyOf(reread), ascending);
    }
  }

  lemma CursorResumes(l: Layout, f: Filter, last: Row, r: Row)
    requires Stored(l, last) && Wanted(l, last, f)
    ensures Wanted(l, r, f.(after := CursorOf(l, last)))
       <==> Wanted(l, r, f) && Ahead(KeyOf(last), KeyOf(r), f.ascending)
  {
    if f.after != NO_CURSOR && Ahead(KeyOf(last), KeyOf(r), f.ascending) {
      AheadIsTransitive((l.text(f.after.ts), f.after.id), KeyOf(last), KeyOf(r), f.ascending);
    }
  }

  // ---- Walking the log ------------------------------------------------------

  function Resumed(l: Layout, f: Filter, pages: seq<seq<Row>>, k: nat): Filter
    requires k <= |pages|
  {
    if k == 0 || pages[k - 1] == [] then f else f.(after := CursorOf(l, Last(pages[k - 1])))
  }

  // Each page is read from the table as it is at that moment, resuming after
  // the last row of the page before; anything may happen to the table between.
  ghost predicate IsWalk(l: Layout, f: Filter, tables: seq<Table>, pages: seq<seq<Row>>) {
    && |tables| == |pages|
    && Offset(f) == 0
    && forall k :: 0 <= k < |pages| ==> Step(l, f, tables, pages, k)
  }

  ghost predicate Step(l: Layout, f: Filter, tables: seq<Table>, pages: seq<seq<Row>>, k: nat)
    requires k < |pages| == |tables|
  {
    && IsPage(l, pages[k], tables[k], Resumed(l, f, pages, k))
    && (k < |pages| - 1 ==> pages[k] != [])
    && (forall r :: r in tables[k] ==> Stored(l, r))
  }

  predicate Behind(pages: seq<seq<Row>>, k: nat, r: Row, ascending: bool)
    requires k <= |pages|
  {
    k == 0 || pages[k - 1] == [] || Ahead(KeyOf(Last(pages[k - 1])), KeyOf(r), ascending)
  }

  // Wanted and not yet passed when page k is read.
  predicate Due(l: Layout, f: Filter, pages: seq<seq<Row>>, k: nat, r: Row)
    requires k <= |pages|
  {
    Wanted(l, r, f) && Behind(pages, k, r, f.ascending)
  }

  lemma {:induction false} AskedFor(l: Layout, f: Filter, tables: seq<Table>, pages: seq<seq<Row>>, k: nat, r: Row)
    requires IsWalk(l, f, tables, pages) && k < |pages|
    ensures Offset(Resumed(l, f, pages, k)) == 0
    ensures Wanted(l, r, Resumed(l, f, pages, k)) <==> Due(l, f, pages, k, r)
    decreases k
  {
    if k > 0 {
      assert Step(l, f, tables, pages, k - 1);
      var last := Last(pages[k - 1]);
      AskedFor(l, f, tables, pages, k - 1, last);
      PageFacts(l, pages[k - 1], tables[k - 1], Resumed(l, f, pages, k - 1));
      assert last in pages[k - 1];
      CursorResumes(l, f, last, r);
    }
  }

  lemma PageOfWalk(l: Layout, f: Filter, tables: seq<Table>, pages: seq<seq<Row>>, k: nat)
    requires IsWalk(l, f, tables, pages) && k < |pages|
    ensures Listed(pages[k], f.ascending) && |pages[k]| <= Limit(f)
    ensures forall r :: r in pages[k] ==> r in tables[k] && Due(l, f, pages, k, r)
    ensures forall r :: r in tables[k] && Due(l, f, pages, k, r) ==>
      r in pages[k] || (|pages[k]| == Limit(f) && Behind(pages, k + 1, r, f.ascending))
  {
    assert Step(l, f, tables, pages, k);
    forall r ensures Wanted(l, r, Resumed(l, f, pages, k)) <==> Due(l, f, pages, k, r) {
      AskedFor(l, f, tables, pages, k, r);
    }
    AskedFor(l, f, tables, pages, k, Row("", "", "", "", ""));
    PageFacts(l, pages[k], tables[k], Resumed(l, f, pages, k));
  }

  lemma RowOfPage(l: Layout, f: Filter, tables: seq<Table>, pages: seq<seq<Row>>, k: nat, r: Row)
    requires IsWalk(l, f, tables, pages) && k < |pages|
    ensures r in pages[k] ==> Wanted(l, r, f) && Sometime(tables, r)
    ensures Wanted(l, r, f) && Throughout(tables, r) && Behind(pages, k, r, f.ascending) ==>
      r in pages[k] || (|pages[k]| == Limit(f) && Behind(pages, k + 1, r, f.ascending))
  {
    PageOfWalk(l, f, tables, pages, k);
  }

  function Concat(pages: seq<seq<Row>>): seq<Row> {
    if pages == [] then [] else Concat(pages[..|pages| - 1]) + pages[|pages| - 1]
  }

  lemma ListedAppend(a: seq<Row>, b: seq<Row>, ascending: bool)
    requires Listed(a, ascending) && Listed(b, ascending)
    requires a != [] ==> forall r :: r in b ==> Ahead(KeyOf(Last(a)), KeyOf(r), ascending)
    ensures Listed(a + b, ascending)
  {
    forall i, j | 0 <= i < |a| && 0 <= j < |b| ensures Ahead(KeyOf(a[i]), KeyOf(b[j]), ascending) {
      assert b[j] in b;
      if i < |a| - 1 { AheadIsTransitive(KeyOf(a[i]), KeyOf(Last(a)), KeyOf(b[j]), ascending); }
    }
  }

  ghost predicate Sometime(tables: seq<Table>, r: Row) {
    exists j :: 0 <= j < |tables| && r in tables[j]
  }

  ghost predicate Throughout(tables: seq<Table>, r: Row) {
    forall j :: 0 <= j < |tables| ==> r in tables[j]
  }

  lemma ConcatNext(pages: seq<seq<Row>>, k: nat)
    requires k < |pages|
    ensures Concat(pages[..k + 1]) == Concat(pages[..k]) + pages[k]
  {
    assert pages[..k + 1][..k] == pages[..k];
  }

  // The first k pages are in order and end where page k resumes.
  lemma {:induction false} PagesAreListed(l: Layout, f: Filter, tables: seq<Table>, pages: seq<seq<Row>>, k: nat)
    requires IsWalk(l, f, tables, pages) && k <= |pages|
    ensures Listed(Concat(pages[..k]), f.ascending)
    ensures k > 0 && pages[k - 1] != [] ==> Concat(pages[..k]) != [] && Last(Concat(pages[..k])) == Last(pages[k - 1])
    decreases k
  {
    if k > 0 {
      PagesAreListed(l, f, tables, pages, k - 1);
      assert k > 1 ==> Step(l, f, tables, pages, k - 2);
      PageOfWalk(l, f, tables, pages, k - 1);
      ConcatNext(pages, k - 1);
      ListedAppend(Concat(pages[..k - 1]), pages[k - 1], f.ascending);
    }
  }

  // They hold wanted rows only, and of the rows there all along everything that
  // is not behind the last of them.
  lemma {:induction false} PagesHold(
    l: Layout, f: Filter, tables: seq<Table>, pages: seq<seq<Row>>, k: nat, r: Row)
    requires IsWalk(l, f, tables, pages) && k <= |pages|
    ensures r in Concat(pages[..k]) ==> Wanted(l, r, f) && Sometime(tables, r)
    ensures Wanted(l, r, f) && Throughout(tables, r) ==>
      r in Concat(pages[..k]) || k == 0 || (|pages[k - 1]| == Limit(f) && Behind(pages, k, r, f.ascending))
    decreases k
  {
    if k > 0 {
      PagesHold(l, f, tables, pages, k - 1, r);
      assert k > 1 ==> Step(l, f, tables, pages, k - 2);
      RowOfPage(l, f, tables, pages, k - 1, r);
      ConcatNext(pages, k - 1);
    }
  }

  lemma ListedIsDistinct(s: seq<Row>, ascending: bool)
    requires Listed(s, ascending)
    ensures forall i, j :: 0 <= i < j < |s| ==> KeyOf(s[i]) != KeyOf(s[j])
  {
    forall i, j | 0 <= i < j < |s| ensures KeyOf(s[i]) != KeyOf(s[j]) {
      AheadIsTotal(KeyOf(s[i]), KeyOf(s[j]), ascending);
    }
  }

  // Following the cursor to a short page returns no row twice, only wanted rows,
  // in order, and every wanted row that was there throughout.
  lemma WalkIsExactlyOnce(l: Layout, f: Filter, tables: seq<Table>, pages: seq<seq<Row>>)
    requires IsWalk(l, f, tables, pages)
    ensures Listed(Concat(pages), f.ascending)
    ensures forall i, j :: 0 <= i < j < |Concat(pages)| ==> KeyOf(Concat(pages)[i]) != KeyOf(Concat(pages)[j])
    ensures forall r :: r in Concat(pages) ==> Wanted(l, r, f) && Sometime(tables, r)
    ensures pages != [] && |pages[|pages| - 1]| < Limit(f) ==>
      forall r :: Wanted(l, r, f) && Throughout(tables, r) ==> r in Concat(pages)
  {
    assert pages[..|pages|] == pages;
    PagesAreListed(l, f, tables, pages, |pages|);
    ListedIsDistinct(Concat(pages), f.ascending);
    forall r
      ensures r in Concat(pages) ==> Wanted(l, r, f) && Sometime(tables, r)
      ensures pages != [] && |pages[|pages| - 1]| < Limit(f) && Wanted(l, r, f) && Throughout(tables, r) ==>
        r in Concat(pages)
    {
      PagesHold(l, f, tables, pages, |pages|, r);
    }
  }

  // A page is empty only when nothing is left; any other page moves the cursor on.
  lemma WalkProgresses(l: Layout, f: Filter, tables: seq<Table>, pages: seq<seq<Row>>, k: nat)
    requires IsWalk(l, f, tables, pages) && k < |pages|
    ensures pages[k] == [] <==> forall r :: r in tables[k] ==> !Due(l, f, pages, k, r)
    ensures pages[k] != [] ==> Behind(pages, k, Last(pages[k]), f.ascending)
  {
    PageOfWalk(l, f, tables, pages, k);
    if pages[k] != [] { assert Last(pages[k]) in pages[k]; }
  }

  lemma {:induction false} ConcatIsLong(pages: seq<seq<Row>>)
    requires forall k :: 0 <= k < |pages| ==> pages[k] != []
    ensures |Concat(pages)| >= |pages|
  {
    if pages != [] { ConcatIsLong(pages[..|pages| - 1]); }
  }

  lemma {:induction false} DistinctFits(s: seq<Row>, rows: set<Row>)
    requires forall i, j :: 0 <= i < j < |s| ==> s[i] != s[j]
    requires forall r :: r in s ==> r in rows
    ensures |s| <= |rows|
  {
    if s != [] {
      var r := s[|s| - 1];
      assert r in s;
      DistinctFits(s[..|s| - 1], rows - {r});
    }
  }

  // Pages before the last are not empty, so there are at most as many as rows.
  lemma EarlyPagesFit(l: Layout, f: Filter, rows: Table, pages: seq<seq<Row>>)
    requires IsWalk(l, f, seq(|pages|, k => rows), pages) && pages != []
    ensures |pages| <= |set r | r in rows| + 1
  {
    var tables := seq(|pages|, k => rows);
    var early := pages[..|pages| - 1];
    forall k | 0 <= k < |early| ensures early[k] != [] {
      assert Step(l, f, tables, pages, k);
    }
    PagesAreListed(l, f, tables, pages, |early|);
    forall r | r in Concat(early) ensures r in rows {
      PagesHold(l, f, tables, pages, |early|, r);
    }
    ListedIsDistinct(Concat(early), f.ascending);
    ConcatIsLong(early);
    DistinctFits(Concat(early), set r | r in rows);
  }

  // On a table that does not change, the pages put together are the whole list,
  // and the walk is over after at most one page more than there are rows.
  lemma WalkOfAFixedTable(l: Layout, f: Filter, rows: Table, pages: seq<seq<Row>>)
    requires IsWalk(l, f, seq(|pages|, k => rows), pages) && pages != []
    ensures |pages| <= |set r | r in rows| + 1
    ensures |pages[|pages| - 1]| < Limit(f) ==> Lists(l, Concat(pages), rows, f)
  {
    EarlyPagesFit(l, f, rows, pages);
    WalkIsExactlyOnce(l, f, seq(|pages|, k => rows), pages);
  }

  // ---- Paging by offset -----------------------------------------------------

  // What is listed is determined by which rows there are.
  lemma {:induction false} SameListed(s: seq<Row>, t: seq<Row>, ascending: bool)
    requires Listed(s, ascending) && Listed(t, ascending) && forall r :: r in s <==> r in t
    ensures s == t
  {
    assert s != [] ==> s[0] in s;
    assert t != [] ==> t[0] in t;
    if s != [] {
      var i :| 0 <= i < |t| && t[i] == s[0];
      var j :| 0 <= j < |s| && s[j] == t[0];
      AheadIsTotal(KeyOf(s[0]), KeyOf(t[0]), ascending);
      assert s[0] == t[0];
      forall r ensures r in s[1..] <==> r in t[1..] {
        NotAgain(s, r, ascending);
        NotAgain(t, r, ascending);
      }
      SameListed(s[1..], t[1..], ascending);
      assert s == [s[0]] + s[1..] && t == [t[0]] + t[1..];
    }
  }

  lemma NotAgain(s: seq<Row>, r: Row, ascending: bool)
    requires s != [] && Listed(s, ascending)
    ensures r in s[1..] <==> r in s && r != s[0]
  {
    if r in s[1..] {
      var i :| 0 <= i < |s[1..]| && s[1..][i] == r;
      AheadIsTotal(KeyOf(s[0]), KeyOf(s[i + 1]), ascending);
    }
  }

  // The list up to position end, if it is that long.
  function UpTo(s: seq<Row>, end: nat): seq<Row> {
    if |s| <= end then s else s[..end]
  }

  lemma OffsetPage(l: Layout, rows: Table, f: Filter, n: nat, from: nat, page: seq<Row>, s: seq<Row>)
    requires Lists(l, s, rows, f) && f.after == NO_CURSOR && 1 <= n <= 1000
    requires IsPage(l, page, rows, f.(limit := n, offset := from))
    ensures UpTo(s, from) + page == UpTo(s, from + n)
    ensures |page| < n ==> UpTo(s, from + n) == s
  {
    var g := f.(limit := n, offset := from);
    var t :| Lists(l, t, rows, g) && page == Slice(t, Offset(g), Limit(g));
    SameListed(s, t, f.ascending);
    if |s| > from { assert s[..from] + s[from..] == s && s[from..][..|page|] == page; }
  }

  // Page k is read at offset k * n.
  ghost predicate AtOffsets(l: Layout, rows: Table, f: Filter, n: nat, pages: seq<seq<Row>>) {
    forall k :: 0 <= k < |pages| ==> IsPage(l, pages[k], rows, f.(limit := n, offset := k * n))
  }

  lemma AtOffsetsBefore(l: Layout, rows: Table, f: Filter, n: nat, pages: seq<seq<Row>>)
    requires pages != [] && AtOffsets(l, rows, f, n, pages)
    ensures
      var k := |pages| - 1;
      && AtOffsets(l, rows, f, n, pages[..k]) && k * n >= 0 && |pages| * n == k * n + n
      && IsPage(l, pages[k], rows, f.(limit := n, offset := k * n))
  {
    assert |pages| * n == (|pages| - 1) * n + n;
  }

  // Pages at the offsets 0, n, 2n, ... put together are the list up to where they
  // end, and once one is short the whole of it.
  lemma {:induction false} OffsetPages(l: Layout, rows: Table, f: Filter, n: nat, pages: seq<seq<Row>>, s: seq<Row>)
    requires Lists(l, s, rows, f) && f.after == NO_CURSOR && 1 <= n <= 1000
    requires AtOffsets(l, rows, f, n, pages)
    ensures Concat(pages) == UpTo(s, |pages| * n)
    ensures pages != [] && |pages[|pages| - 1]| < n ==> Concat(pages) == s
    decreases |pages|
  {
    if pages != [] {
      var k := |pages| - 1;
      AtOffsetsBefore(l, rows, f, n, pages);
      var from := k * n;
      OffsetPages(l, rows, f, n, pages[..k], s);
      assert Concat(pages[..k]) == UpTo(s, from);
      OffsetPage(l, rows, f, n, from, pages[k], s);
      assert Concat(pages) == Concat(pages[..k]) + pages[k];
    }
  }

  // ---- Cursor tokens --------------------------------------------------------

  datatype Decoded = Decoded(cursor: Cursor) | Malformed | NoTimestamp

  function Encode(l: Layout, c: Cursor): string {
    if c == NO_CURSOR then "" else l.text(c.ts) + "|" + c.id
  }

  function Decode(l: Layout, token: string): Decoded {
    if token == "" then Decoded(NO_CURSOR)
    else
      var i := IndexOf(token, '|');
      if i < 0 then Malformed
      else
        var ts := l.parse(token[..i]);
        if ts == 0 then NoTimestamp else Decoded(Cursor(ts, token[i + 1..]))
  }

  // A token reads back as the cursor it was made from exactly for the zero
  // cursor and for whole, non-zero milliseconds, whatever the id.
  lemma CursorRoundTrip(l: Layout, c: Cursor)
    requires Faithful(l)
    ensures Decode(l, Encode(l, c)) == Decoded(c) <==> c == NO_CURSOR || (c.ts != 0 && c.ts % 1_000_000 == 0)
    ensures c != NO_CURSOR ==>
      var ms := ToMillisecond(c.ts);
      Decode(l, Encode(l, c)) == if ms == 0 then NoTimestamp else Decoded(Cursor(ms, c.id))
  {
    CutAtFirst(l.text(c.ts), '|', c.id);
    var token := l.text(c.ts) + "|" + c.id;
    assert token[..|l.text(c.ts)|] == l.text(c.ts) && token[|l.text(c.ts)| + 1..] == c.id;
  }

  // Every other token: without a separator it is refused, never read as a fresh
  // start; what precedes the first separator is the timestamp, all that follows the id.
  lemma DecodeExactly(l: Layout, token: string, head: string, tail: string)
    ensures Decode(l, "") == Decoded(Cursor(0, ""))
    ensures token != "" && '|' !in token ==> Decode(l, token) == Malformed
    ensures '|' !in head ==>
      Decode(l, head + "|" + tail) == if l.parse(head) == 0 then NoTimestamp else Decoded(Cursor(l.parse(head), tail))
  {
    if '|' !in head {
      CutAtFirst(head, '|', tail);
      var cut := head + "|" + tail;
      assert cut[..|head|] == head && cut[|head| + 1..] == tail;
    }
  }

  // So a consumer that keeps its position as a token walks on from the same row.
  lemma TokenOfARow(l: Layout, r: Row)
    requires Faithful(l) && Stored(l, r) && l.parse(r.ts) != 0
    ensures Decode(l, Encode(l, CursorOf(l, r))) == Decoded(CursorOf(l, r))
  {
    var c := CursorOf(l, r);
    assert l.parse(l.text(c.ts)) == ToMillisecond(c.ts);
    CursorRoundTrip(l, c);
  }
}
