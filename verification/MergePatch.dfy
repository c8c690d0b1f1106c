// In-place JSON merge patch of one task override in dicode.yaml, with pruning of
// emptied maps (pkg/config/persist.go).
module MergePatch {
  import opened Records
  import opened Strings

  // A key of a decoded YAML mapping that is not all strings.
  datatype Key = Str(s: string) | NonString(n: int)

  // A decoded document: map[string]any, map[any]any, list, scalar or null.
  datatype Value =
    | Null
    | Scalar(text: string)
    | List(items: seq<Value>)
    | Obj(fields: map<string, Value>)
    | AnyObj(pairs: map<Key, Value>)

  type Fields = map<string, Value>

  predicate IsMap(v: Value) {
    v.Obj? || v.AnyObj?
  }

  function StringKeys(pairs: map<Key, Value>): Fields {
    map k | k in pairs && k.Str? :: k.s := pairs[k]
  }

  // A map value with its string keys only.
  function AsFields(v: Value): Option<Fields> {
    match v
    case Obj(fields) => Some(fields)
    case AnyObj(pairs) => Some(StringKeys(pairs))
    case _ => None
  }

  function GetMap(parent: Fields, key: string): Option<Fields> {
    if key in parent then AsFields(parent[key]) else None
  }

  // ---- Merging --------------------------------------------------------------

  // What mergeMap leaves in dst. patch is an object.
  function Merged(dst: Fields, patch: Value): Fields
    requires patch.Obj?
    decreases patch
  {
    map k | k in dst.Keys + patch.fields.Keys && !(k in patch.fields && patch.fields[k] == Null) ::
      if k !in patch.fields then dst[k] else MergedField(dst, patch, k)
  }

  function MergedField(dst: Fields, patch: Value, k: string): Value
    requires patch.Obj? && k in patch.fields
    decreases patch, 0
  {
    var v := patch.fields[k];
    var dstSub := GetMap(dst, k);
    if v.Obj? && dstSub.Some? then Obj(Merged(dstSub.value, v)) else v
  }

  // mergeMap with the keys of done handled so far, in any order.
  ghost predicate MergedOn(dst: Fields, patch: Value, done: set<string>, r: Fields)
    requires patch.Obj? && done <= patch.fields.Keys
  {
    forall k ::
      if k in done then
        (k in r <==> patch.fields[k] != Null) && (k in r ==> r[k] == MergedField(dst, patch, k))
      else (k in r <==> k in dst) && (k in r ==> r[k] == dst[k])
  }

  // Go ranges over the patch in an order of its own choosing.
  method MergeMap(dst: Fields, patch: Value) returns (r: Fields)
    requires patch.Obj?
    ensures r == Merged(dst, patch)
    decreases patch
  {
    r := dst;
    var todo := patch.fields.Keys;
    while todo != {}
      invariant todo <= patch.fields.Keys
      invariant MergedOn(dst, patch, patch.fields.Keys - todo, r)
    {
      var k :| k in todo;
      var v := patch.fields[k];
      if v == Null {
        r := r - {k};
      } else {
        var dstSub := GetMap(r, k);
        if v.Obj? && dstSub.Some? {
          var sub := MergeMap(dstSub.value, v);
          r := r[k := Obj(sub)];
        } else {
          r := r[k := v];
        }
      }
      todo := todo - {k};
    }
    assert r.Keys == Merged(dst, patch).Keys;
  }

  // MergePatch(Target, Patch) of section 2 of RFC 7396; None is a missing target.
  function RfcMergePatch(target: Option<Value>, patch: Value): Value
    decreases patch
  {
    if !patch.Obj? then patch
    else
      var t := if target.Some? && AsFields(target.value).Some? then AsFields(target.value).value else map[];
      Obj(map k | k in t.Keys + patch.fields.Keys && !(k in patch.fields && patch.fields[k] == Null) ::
            if k in patch.fields then RfcMergePatch(if k in t then Some(t[k]) else None, patch.fields[k]) else t[k])
  }

  // No null member in v or in an object below it.
  predicate NullFree(v: Value) {
    v.Obj? ==> forall k :: k in v.fields ==> v.fields[k] != Null && NullFree(v.fields[k])
  }

  // Wherever the patch brings an object to something that is not a map, that
  // object is null-free.
  predicate LandsClean(dst: Fields, patch: Value)
    requires patch.Obj?
    decreases patch
  {
    forall k :: k in patch.fields && patch.fields[k].Obj? ==>
      if GetMap(dst, k).Some? then LandsClean(GetMap(dst, k).value, patch.fields[k]) else NullFree(patch.fields[k])
  }

  lemma {:induction false} LandingOnNothing(target: Option<Value>, patch: Value)
    requires target == None || AsFields(target.value) == None
    ensures RfcMergePatch(target, patch) == patch <==> NullFree(patch)
    decreases patch
  {
    if patch.Obj? {
      var r := RfcMergePatch(target, patch).fields;
      forall k | k in patch.fields && patch.fields[k] != Null
        ensures k in r && (r[k] == patch.fields[k] <==> NullFree(patch.fields[k]))
      {
        LandingOnNothing(None, patch.fields[k]);
      }
      if NullFree(patch) { assert r == patch.fields; }
    }
  }

  // mergeMap is the merge patch of the RFC exactly when the patch lands clean.
  lemma {:induction false} MergeIsRfc(dst: Fields, patch: Value)
    requires patch.Obj?
    ensures Obj(Merged(dst, patch)) == RfcMergePatch(Some(Obj(dst)), patch) <==> LandsClean(dst, patch)
    decreases patch
  {
    var m, r := Merged(dst, patch), RfcMergePatch(Some(Obj(dst)), patch).fields;
    assert m.Keys == r.Keys;
    forall k | k in patch.fields && patch.fields[k] != Null
      ensures k in m && k in r && (m[k] == r[k] <==> FieldLandsClean(dst, patch, k))
    {
      FieldIsRfc(dst, patch, k);
    }
    if LandsClean(dst, patch) {
      forall k | k in m ensures m[k] == r[k] {
        if k in patch.fields { assert FieldLandsClean(dst, patch, k); }
      }
    } else {
      var k :| k in patch.fields && !FieldLandsClean(dst, patch, k);
      assert !FieldLandsClean(dst, patch, k);
      assert k in m && k in r && m[k] != r[k];
    }
  }

  predicate FieldLandsClean(dst: Fields, patch: Value, k: string)
    requires patch.Obj? && k in patch.fields
  {
    patch.fields[k].Obj? ==>
      if GetMap(dst, k).Some? then LandsClean(GetMap(dst, k).value, patch.fields[k]) else NullFree(patch.fields[k])
  }

  lemma {:induction false} FieldIsRfc(dst: Fields, patch: Value, k: string)
    requires patch.Obj? && k in patch.fields && patch.fields[k] != Null
    ensures
      MergedField(dst, patch, k) == RfcMergePatch(if k in dst then Some(dst[k]) else None, patch.fields[k])
      <==> FieldLandsClean(dst, patch, k)
    decreases patch, 0
  {
    var v := patch.fields[k];
    var target := if k in dst then Some(dst[k]) else None;
    if v.Obj? {
      if GetMap(dst, k).Some? {
        MergeIsRfc(GetMap(dst, k).value, v);
        assert RfcMergePatch(target, v) == RfcMergePatch(Some(Obj(GetMap(dst, k).value)), v);
      } else {
        LandingOnNothing(target, v);
      }
    }
  }

  // ---- Pruning --------------------------------------------------------------

  predicate IsEmptyMap(v: Value) {
    v == Obj(map[]) || v == AnyObj(map[])
  }

  // A tree without the maps that hold nothing but empty maps.
  function Pruned(v: Value): Value {
    match v
    case Obj(fields) =>
      Obj(map k | k in fields && !IsEmptyMap(Pruned(fields[k])) :: Pruned(fields[k]))
    case AnyObj(pairs) =>
      AnyObj(map k | k in pairs && !IsEmptyMap(Pruned(pairs[k])) :: Pruned(pairs[k]))
    case _ => v
  }

  // The keys outside todo have been visited.
  predicate PrunedSoFar<K(==)>(m: map<K, Value>, r: map<K, Value>, todo: set<K>) {
    && todo <= m.Keys && r.Keys <= m.Keys
    && (forall k :: k in todo ==> k in r && r[k] == m[k])
    && forall k :: k in m && k !in todo ==>
         (k in r <==> !IsEmptyMap(Pruned(m[k]))) && (k in r ==> r[k] == Pruned(m[k]))
  }

  function Visit<K>(r: map<K, Value>, k: K, v: Value): map<K, Value> {
    if IsEmptyMap(v) then r - {k} else r[k := v]
  }

  lemma VisitPrunes<K>(m: map<K, Value>, r: map<K, Value>, todo: set<K>, k: K)
    requires PrunedSoFar(m, r, todo) && k in todo
    ensures PrunedSoFar(m, Visit(r, k, Pruned(m[k])), todo - {k})
  {
  }

  // Both loops delete from the map they range over; the keys to visit are those
  // it started with.
  method PruneEmptyMaps(m: Fields) returns (r: Fields)
    ensures Obj(r) == Pruned(Obj(m))
    decreases Obj(m)
  {
    r := m;
    var todo := m.Keys;
    while todo != {}
      invariant PrunedSoFar(m, r, todo)
    {
      var k :| k in todo;
      var v := r[k];
      assert v < Obj(m);
      VisitPrunes(m, r, todo, k);
      ghost var next := Visit(r, k, Pruned(v));
      if v.Obj? {
        var sub := PruneEmptyMaps(v.fields);
        assert Pruned(v) == Obj(sub);
        r := if sub == map[] then r - {k} else r[k := Obj(sub)];
      } else if v.AnyObj? {
        var sub := PruneEmptyMapsAny(v.pairs);
        assert Pruned(v) == AnyObj(sub);
        r := if sub == map[] then r - {k} else r[k := AnyObj(sub)];
      } else {
        assert r[k := v] == r;
      }
      assert r == next;
      todo := todo - {k};
    }
    assert Pruned(Obj(m)).fields == r;
  }

  method PruneEmptyMapsAny(m: map<Key, Value>) returns (r: map<Key, Value>)
    ensures AnyObj(r) == Pruned(AnyObj(m))
    decreases AnyObj(m)
  {
    r := m;
    var todo := m.Keys;
    while todo != {}
      invariant PrunedSoFar(m, r, todo)
    {
      var k :| k in todo;
      var v := r[k];
      assert v < AnyObj(m);
      VisitPrunes(m, r, todo, k);
      ghost var next := Visit(r, k, Pruned(v));
      if v.Obj? {
        var sub := PruneEmptyMaps(v.fields);
        assert Pruned(v) == Obj(sub);
        r := if sub == map[] then r - {k} else r[k := Obj(sub)];
      } else if v.AnyObj? {
        var sub := PruneEmptyMapsAny(v.pairs);
        assert Pruned(v) == AnyObj(sub);
        r := if sub == map[] then r - {k} else r[k := AnyObj(sub)];
      } else {
        assert r[k := v] == r;
      }
      assert r == next;
      todo := todo - {k};
    }
    assert Pruned(AnyObj(m)).pairs == r;
  }

  function Child(v: Value, k: Key): Option<Value> {
    match v
    case Obj(fields) => if k.Str? && k.s in fields then Some(fields[k.s]) else None
    case AnyObj(pairs) => if k in pairs then Some(pairs[k]) else None
    case _ => None
  }

  // What is not a map at the end of path: the content of a document.
  function LeafAt(v: Value, path: seq<Key>): (leaf: Option<Value>)
    ensures path == [] ==> leaf == match v { case Obj(_) => None case AnyObj(_) => None case _ => Some(v) }
    decreases |path|
  {
    if path == [] then (if IsMap(v) then None else Some(v))
    else if Child(v, path[0]).None? then None
    else LeafAt(Child(v, path[0]).value, path[1..])
  }

  // No empty map is reachable from v through maps, v itself aside.
  predicate NoEmptyBelow(v: Value) {
    match v
    case Obj(fields) =>
      forall k :: k in fields ==> fields[k] != Obj(map[]) && fields[k] != AnyObj(map[]) && NoEmptyBelow(fields[k])
    case AnyObj(pairs) =>
      forall k :: k in pairs ==> pairs[k] != Obj(map[]) && pairs[k] != AnyObj(map[]) && NoEmptyBelow(pairs[k])
    case _ => true
  }

  lemma {:induction false} PrunedHasNoEmptyMap(v: Value)
    ensures NoEmptyBelow(Pruned(v))
    ensures NoEmptyBelow(v) ==> Pruned(v) == v
  {
    match v
    case Obj(fields) =>
      forall k | k in fields
        ensures NoEmptyBelow(Pruned(fields[k])) && (NoEmptyBelow(fields[k]) ==> Pruned(fields[k]) == fields[k])
      {
        PrunedHasNoEmptyMap(fields[k]);
      }
    case AnyObj(pairs) =>
      forall k | k in pairs
        ensures NoEmptyBelow(Pruned(pairs[k])) && (NoEmptyBelow(pairs[k]) ==> Pruned(pairs[k]) == pairs[k])
      {
        PrunedHasNoEmptyMap(pairs[k]);
      }
    case _ =>
  }

  // Pruning loses no content and invents none, leaves no empty map, and has
  // nothing left to do the second time.
  lemma PruningKeepsContent(v: Value)
    ensures forall path :: LeafAt(Pruned(v), path) == LeafAt(v, path)
    ensures NoEmptyBelow(Pruned(v)) && Pruned(Pruned(v)) == Pruned(v)
  {
    forall path ensures LeafAt(Pruned(v), path) == LeafAt(v, path) { LeafKept(v, path); }
    PrunedHasNoEmptyMap(v);
    PrunedHasNoEmptyMap(Pruned(v));
  }

  lemma {:induction false} LeafKept(v: Value, path: seq<Key>)
    ensures LeafAt(Pruned(v), path) == LeafAt(v, path)
    decreases |path|
  {
    if path != [] && Child(v, path[0]).Some? {
      var c := Child(v, path[0]).value;
      LeafKept(c, path[1..]);
      if IsEmptyMap(Pruned(c)) {
        assert LeafAt(Pruned(c), path[1..]) == None;
        assert Child(Pruned(v), path[0]) == None;
      } else {
        assert Child(Pruned(v), path[0]) == Some(Pruned(c));
      }
    }
  }

  // ---- One task's override --------------------------------------------------

  function Sub(m: Fields, k: string): Fields {
    if GetMap(m, k).Some? then GetMap(m, k).value else map[]
  }

  function Put(m: Fields, k: string, v: Fields, dropEmpty: bool): Fields {
    if dropEmpty && v == map[] then m - {k} else m[k := Obj(v)]
  }

  // Replace the map at the end of at. The last three containers on the way are
  // dropped when they end up empty.
  function PutAt(m: Fields, at: seq<string>, v: Fields): Fields
    requires at != []
    decreases |at|
  {
    Put(m, at[0], if |at| == 1 then v else PutAt(Sub(m, at[0]), at[1..], v), |at| <= 3)
  }

  function OverridePath(source: string, sub: string): seq<string> {
    ["spec", "entries", source, "overrides", "entries", sub]
  }

  function SubAt(m: Fields, at: seq<string>): Fields
    decreases |at|
  {
    if at == [] then m else SubAt(Sub(m, at[0]), at[1..])
  }

  // The document after patching the override of source/sub.
  function Overridden(doc: Fields, source: string, sub: string, patch: Value): Fields
    requires patch.Obj?
  {
    var at := OverridePath(source, sub);
    PutAt(doc, at, Pruned(Obj(Merged(SubAt(doc, at), patch))).fields)
  }

  datatype Outcome =
    | Written
    | NoSeparator
    | EmptyPart
    | ConcurrentModification
    | EntriesMissing
    | SourceMissing
    | BadPatch

  class ConfigFile {
    var doc: Option<Fields>      // None: an empty file
    var mtime: int

    // patch is the decoded JSON text; null decodes to an empty patch. nextMtime is
    // the file system's time of the write.
    method MergeTaskOverride(taskID: string, patch: Value, expectedMtime: int, nextMtime: int) returns (o: Outcome)
      modifies this
      ensures o != Written ==> doc == old(doc) && mtime == old(mtime)
      ensures
        var i := IndexOf(taskID, '/');
        var d := if old(doc).Some? then old(doc).value else map[];
        var entries := GetMap(Sub(d, "spec"), "entries");
        o == (if i < 0 then NoSeparator
              else if i == 0 || i == |taskID| - 1 then EmptyPart
              else if old(mtime) != expectedMtime then ConcurrentModification
              else if entries == None then EntriesMissing
              else if GetMap(entries.value, taskID[..i]) == None then SourceMissing
              else if !patch.Obj? && !patch.Null? then BadPatch
              else Written)
      ensures o == Written ==>
        var i := IndexOf(taskID, '/');
        var d := if old(doc).Some? then old(doc).value else map[];
        && mtime == nextMtime
        && doc == Some(Overridden(d, taskID[..i], taskID[i + 1..], if patch.Null? then Obj(map[]) else patch))
    {
      var i := IndexOf(taskID, '/');
      if i < 0 { return NoSeparator; }
      var source, sub := taskID[..i], taskID[i + 1..];
      if source == "" || sub == "" { return EmptyPart; }
      if mtime != expectedMtime { return ConcurrentModification; }
      var d := if doc.Some? then doc.value else map[];
      var specBlock := Sub(d, "spec");
      var entriesMap := GetMap(specBlock, "entries");
      if entriesMap.None? { return EntriesMissing; }
      if GetMap(entriesMap.value, source).None? { return SourceMissing; }
      if !patch.Obj? && patch != Null { return BadPatch; }
      var written := Override(d, source, sub, if patch.Null? then Obj(map[]) else patch);
      doc := Some(written);
      mtime := nextMtime;
      return Written;
    }
  }

  // The part of MergeTaskOverride between decoding and encoding.
  method Override(d: Fields, source: string, sub: string, patch: Value) returns (written: Fields)
    requires patch.Obj?
    ensures written == Overridden(d, source, sub, patch)
  {
    var specBlock := Sub(d, "spec");
    var entries := Sub(specBlock, "entries");
    var entry := Sub(entries, source);
    var overrides := Sub(entry, "overrides");
    var overrideEntries := Sub(overrides, "entries");
    var subOverrides := Sub(overrideEntries, sub);
    assert subOverrides == SubAt(d, OverridePath(source, sub)) by { PathUnrolled(d, source, sub, map[]); }

    subOverrides := MergeMap(subOverrides, patch);
    subOverrides := PruneEmptyMaps(subOverrides);
    PathUnrolled(d, source, sub, subOverrides);

    overrideEntries :=
      if subOverrides == map[] then overrideEntries - {sub} else overrideEntries[sub := Obj(subOverrides)];
    overrides :=
      if overrideEntries == map[] then overrides - {"entries"} else overrides["entries" := Obj(overrideEntries)];
    entry := if overrides == map[] then entry - {"overrides"} else entry["overrides" := Obj(overrides)];
    entries := entries[source := Obj(entry)];
    specBlock := specBlock["entries" := Obj(entries)];
    written := d["spec" := Obj(specBlock)];
  }

  // One level of the path.
  lemma PathStep(m: Fields, k: string, rest: seq<string>, v: Fields)
    ensures SubAt(m, [k] + rest) == SubAt(Sub(m, k), rest)
    ensures PutAt(m, [k] + rest, v)
         == Put(m, k, if rest == [] then v else PutAt(Sub(m, k), rest, v), |rest| <= 2)
  {
    assert ([k] + rest)[1..] == rest;
  }

  // The six levels of the path, one by one.
  lemma PathUnrolled(d: Fields, source: string, sub: string, v: Fields)
    ensures
      var at := OverridePath(source, sub);
      var specBlock := Sub(d, "spec");
      var entries := Sub(specBlock, "entries");
      var entry := Sub(entries, source);
      var overrides := Sub(entry, "overrides");
      var overrideEntries := Sub(overrides, "entries");
      && SubAt(d, at) == Sub(overrideEntries, sub)
      && PutAt(d, at, v) ==
           Put(d, "spec", Put(specBlock, "entries", Put(entries, source, Put(entry, "overrides",
             Put(overrides, "entries", Put(overrideEntries, sub, v, true), true), true), false), false), false)
  {
    var specBlock := Sub(d, "spec");
    var entries := Sub(specBlock, "entries");
    var entry := Sub(entries, source);
    var overrides := Sub(entry, "overrides");
    PathStep(d, "spec", ["entries", source, "overrides", "entries", sub], v);
    PathStep(specBlock, "entries", [source, "overrides", "entries", sub], v);
    PathStep(entries, source, ["overrides", "entries", sub], v);
    PathStep(entry, "overrides", ["entries", sub], v);
    PathStep(overrides, "entries", [sub], v);
    PathStep(Sub(overrides, "entries"), sub, [], v);
    assert OverridePath(source, sub) == ["spec"] + ["entries", source, "overrides", "entries", sub];
    assert ["entries", source, "overrides", "entries", sub] == ["entries"] + [source, "overrides", "entries", sub];
    assert [source, "overrides", "entries", sub] == [source] + ["overrides", "entries", sub];
    assert ["overrides", "entries", sub] == ["overrides"] + ["entries", sub];
    assert ["entries", sub] == ["entries"] + [sub];
    assert [sub] == [sub] + [];
  }

  // ---- Locality -------------------------------------------------------------

  function Keys(at: seq<string>): seq<Key> {
    seq(|at|, i requires 0 <= i < |at| => Str(at[i]))
  }

  // Neither path continues the other.
  predicate Apart(p: seq<Key>, q: seq<Key>) {
    !(p <= q) && !(q <= p)
  }

  ghost predicate HoldsNothing(v: Value) {
    forall path :: LeafAt(v, path) == None
  }

  // In the containers above the end of at, no content under keys that are not
  // strings.
  ghost predicate OthersHoldNothing(m: Fields, at: seq<string>)
    decreases |at|
  {
    |at| >= 2 ==> ChildOthersHoldNothing(m, at[0]) && OthersHoldNothing(Sub(m, at[0]), at[1..])
  }

  ghost predicate ChildOthersHoldNothing(m: Fields, k: string) {
    k in m && m[k].AnyObj? ==> forall x :: x in m[k].pairs && !x.Str? ==> HoldsNothing(m[k].pairs[x])
  }

  lemma PutLeaves(m: Fields, k: string, v: Fields, dropEmpty: bool, path: seq<Key>)
    ensures LeafAt(Obj(Put(m, k, v, dropEmpty)), path) ==
      if path != [] && path[0] == Str(k) then LeafAt(Obj(v), path[1..]) else LeafAt(Obj(m), path)
  {
    if path != [] && path[0] == Str(k) {
      assert v == map[] ==> LeafAt(Obj(v), path[1..]) == None;
    }
  }

  lemma ApartBelow(path: seq<Key>, at: seq<string>)
    requires path != [] && at != [] && path[0] == Str(at[0])
    ensures Apart(path, Keys(at)) ==> |at| > 1 && Apart(path[1..], Keys(at[1..]))
  {
    assert Keys(at) == [Str(at[0])] + Keys(at[1..]) && path == [Str(at[0])] + path[1..];
    assert |at| == 1 ==> Keys(at) <= path;
    assert path[1..] <= Keys(at[1..]) ==> path <= Keys(at);
    assert Keys(at[1..]) <= path[1..] ==> Keys(at) <= path;
  }

  lemma PrefixBelow(k: Key, p: seq<Key>, q: seq<Key>)
    ensures [k] + p <= [k] + q ==> p <= q
  {
    assert ([k] + p)[1..] == p && ([k] + q)[1..] == q;
  }

  // Reading a child through getMap shows the same content, unless some is under a
  // key that is not a string.
  lemma SubLeaves(m: Fields, k: string, path: seq<Key>)
    requires path != [] && ChildOthersHoldNothing(m, k)
    ensures LeafAt(Obj(Sub(m, k)), path) == LeafAt(Obj(m), [Str(k)] + path)
  {
    assert ([Str(k)] + path)[1..] == path;
    if k in m {
      assert LeafAt(Obj(m), [Str(k)] + path) == LeafAt(m[k], path);
      if m[k].AnyObj? && path[0].Str? {
        assert Child(Obj(StringKeys(m[k].pairs)), path[0]) == Child(m[k], path[0]);
      } else if m[k].AnyObj? && path[0] in m[k].pairs {
        assert HoldsNothing(m[k].pairs[path[0]]);
        assert LeafAt(m[k].pairs[path[0]], path[1..]) == None;
      }
    }
  }

  lemma {:induction false} KeptOutside(m: Fields, at: seq<string>, v: Fields, path: seq<Key>)
    requires at != [] && OthersHoldNothing(m, at) && Apart(path, Keys(at))
    ensures LeafAt(Obj(PutAt(m, at, v)), path) == LeafAt(Obj(m), path)
    decreases |at|
  {
    var k := at[0];
    var inner := if |at| == 1 then v else PutAt(Sub(m, k), at[1..], v);
    PutLeaves(m, k, inner, |at| <= 3, path);
    if path != [] && path[0] == Str(k) {
      ApartBelow(path, at);
      KeptOutside(Sub(m, k), at[1..], v, path[1..]);
      SubLeaves(m, k, path[1..]);
      assert [Str(k)] + path[1..] == path;
    }
  }

  // Content under a key that is not a string, in a container on the way, is lost.
  lemma {:induction false} LostOutside(m: Fields, at: seq<string>, v: Fields) returns (path: seq<Key>)
    requires at != [] && !OthersHoldNothing(m, at)
    ensures Apart(path, Keys(at)) && LeafAt(Obj(m), path).Some? && LeafAt(Obj(PutAt(m, at, v)), path) == None
    decreases |at|
  {
    var k := at[0];
    var inner := PutAt(Sub(m, k), at[1..], v);
    if !ChildOthersHoldNothing(m, k) {
      var x :| x in m[k].pairs && !x.Str? && !HoldsNothing(m[k].pairs[x]);
      var rest :| LeafAt(m[k].pairs[x], rest) != None;
      path := [Str(k), x] + rest;
      assert path[1..] == [x] + rest && ([x] + rest)[1..] == rest;
      assert Keys(at)[1] == Str(at[1]);
    } else {
      var rest := LostOutside(Sub(m, k), at[1..], v);
      path := [Str(k)] + rest;
      assert Keys(at) == [Str(k)] + Keys(at[1..]) && path[1..] == rest;
      PrefixBelow(Str(k), rest, Keys(at[1..]));
      PrefixBelow(Str(k), Keys(at[1..]), rest);
      assert rest != [];
      SubLeaves(m, k, rest);
    }
    PutLeaves(m, k, inner, |at| <= 3, path);
  }

  // Nothing outside the addressed path changes if and only if no container on the
  // way has content under a key that is not a string.
  lemma PutAtIsLocalExactly(m: Fields, at: seq<string>, v: Fields)
    requires at != []
    ensures (forall path :: Apart(path, Keys(at)) ==> LeafAt(Obj(PutAt(m, at, v)), path) == LeafAt(Obj(m), path))
       <==> OthersHoldNothing(m, at)
  {
    if OthersHoldNothing(m, at) {
      forall path | Apart(path, Keys(at)) ensures LeafAt(Obj(PutAt(m, at, v)), path) == LeafAt(Obj(m), path) {
        KeptOutside(m, at, v, path);
      }
    } else {
      var path := LostOutside(m, at, v);
    }
  }

  lemma {:induction false} PutAtInside(m: Fields, at: seq<string>, v: Fields, path: seq<Key>)
    requires at != []
    ensures LeafAt(Obj(PutAt(m, at, v)), Keys(at) + path) == LeafAt(Obj(v), path)
    decreases |at|
  {
    var k := at[0];
    var inner := if |at| == 1 then v else PutAt(Sub(m, k), at[1..], v);
    var full := Keys(at) + path;
    PutLeaves(m, k, inner, |at| <= 3, full);
    assert full[1..] == Keys(at[1..]) + path;
    if |at| == 1 { assert full[1..] == path; } else { PutAtInside(Sub(m, k), at[1..], v, path); }
  }

  // What a written override means for the content of the document: outside the
  // path, all of it is kept exactly under the condition above; below the path, it
  // is the content of the merge.
  lemma OverrideContent(doc: Fields, source: string, sub: string, patch: Value)
    requires patch.Obj?
    ensures
      var at := OverridePath(source, sub);
      var doc' := Overridden(doc, source, sub, patch);
      && ((forall path :: Apart(path, Keys(at)) ==> LeafAt(Obj(doc'), path) == LeafAt(Obj(doc), path))
          <==> OthersHoldNothing(doc, at))
      && forall path :: LeafAt(Obj(doc'), Keys(at) + path) == LeafAt(Obj(Merged(SubAt(doc, at), patch)), path)
  {
    var at := OverridePath(source, sub);
    var merged := Obj(Merged(SubAt(doc, at), patch));
    var v := Pruned(merged).fields;
    PutAtIsLocalExactly(doc, at, v);
    forall path ensures LeafAt(Obj(PutAt(doc, at, v)), Keys(at) + path) == LeafAt(merged, path) {
      PutAtInside(doc, at, v, path);
      LeafKept(merged, path);
    }
  }

  // ---- Which containers there are afterwards ----------------------------------

  lemma PutShape(m: Fields, k: string, v: Fields, dropEmpty: bool)
    ensures
      var m' := Put(m, k, v, dropEmpty);
      && Sub(m', k) == v && (k in m' <==> !dropEmpty || v != map[])
      && forall x :: x != k ==> (x in m' <==> x in m) && (x in m ==> m'[x] == m[x])
  {
  }

  // Along the path, every container holds what it held but for the next one on the
  // path; and that one is gone exactly when it is one of the last three and empty.
  lemma {:induction false} PutAtShape(m: Fields, at: seq<string>, v: Fields, i: nat)
    requires i < |at|
    ensures
      var was, now, next := SubAt(m, at[..i]), SubAt(PutAt(m, at, v), at[..i]), SubAt(PutAt(m, at, v), at[..i + 1]);
      && (forall k :: k != at[i] ==> (k in now <==> k in was) && (k in was ==> now[k] == was[k]))
      && (at[i] in now <==> next != map[] || |at| - i > 3)
      && SubAt(PutAt(m, at, v), at) == v
    decreases |at|
  {
    var k := at[0];
    var inner := if |at| == 1 then v else PutAt(Sub(m, k), at[1..], v);
    var m' := PutAt(m, at, v);
    PutShape(m, k, inner, |at| <= 3);
    assert SubAt(m', at) == SubAt(inner, at[1..]);
    if |at| > 1 { PutAtShape(Sub(m, k), at[1..], v, if i == 0 then 0 else i - 1); }
    assert at[..i + 1][0] == k && at[..i + 1][1..] == at[1..][..i];
    assert SubAt(m', at[..i + 1]) == SubAt(inner, at[1..][..i]);
    if i == 0 {
      assert at[..0] == [] && at[1..][..0] == [];
    } else {
      assert at[..i][0] == k && at[..i][1..] == at[1..][..i - 1];
      assert at[1..][..i - 1 + 1] == at[1..][..i];
    }
  }

  // The shape of a written document: below the path there is no empty map; of the
  // containers on it, "overrides", its "entries" and the override itself are there
  // exactly when they hold something, the three above always; and next to the path
  // everything is as it was, empty maps included.
  lemma OverrideShape(doc: Fields, source: string, sub: string, patch: Value, i: nat)
    requires patch.Obj? && i < 6
    ensures
      var at := OverridePath(source, sub);
      var doc' := Overridden(doc, source, sub, patch);
      var was, now, next := SubAt(doc, at[..i]), SubAt(doc', at[..i]), SubAt(doc', at[..i + 1]);
      && at == ["spec", "entries", source, "overrides", "entries", sub]
      && (forall k :: k != at[i] ==> (k in now <==> k in was) && (k in was ==> now[k] == was[k]))
      && (at[i] in now <==> i < 3 || next != map[])
      && NoEmptyBelow(Obj(SubAt(doc', at)))
  {
    var at := OverridePath(source, sub);
    var merged := Obj(Merged(SubAt(doc, at), patch));
    PutAtShape(doc, at, Pruned(merged).fields, i);
    PrunedHasNoEmptyMap(merged);
  }
}
