// Which files moved between two commits and how many commits that is, with a
// cache that walks git at most once (pkg/approval/state.go, pkg/approval/gate.go).
// A commit's tree never changes; a walk may fail at any time. Which cache belongs
// to which range is the business of Generations.
module Markers {
  import opened Records

  // Blob hashes by path, for the commits that can be resolved.
  type Repo = string -> Option<map<string, string>>

  const NEW := "new"
  const CHANGED := "changed"

  // What a file's marker should be between two commits.
  function Status(repo: Repo, from: string, to: string, path: string): Option<string> {
    if repo(from) == None || repo(to) == None || path !in repo(to).value then None
    else if path !in repo(from).value then Some(NEW)
    else if repo(from).value[path] != repo(to).value[path] then Some(CHANGED)
    else None
  }

  function Fresh(repo: Repo, from: string, to: string, paths: seq<string>): map<string, string> {
    map p | p in paths && Status(repo, from, to, p).Some? :: Status(repo, from, to, p).value
  }

  // New where only the later commit has the file, changed where both have it with
  // different contents; nothing else is marked.
  lemma StatusExactly(repo: Repo, from: string, to: string, path: string)
    ensures
      var status := Status(repo, from, to, path);
      && (status == Some("new") <==>
            repo(from).Some? && repo(to).Some? && path in repo(to).value && path !in repo(from).value)
      && (status == Some("changed") <==>
            repo(from).Some? && repo(to).Some? && path in repo(to).value && path in repo(from).value
            && repo(from).value[path] != repo(to).value[path])
      && (status == None || status == Some("new") || status == Some("changed"))
  {
  }

  // byPath, once done, is what one walk gave; the ghost fields say which.
  class FileStatusCache {
    var done: bool
    var byPath: map<string, string>
    ghost var walk: Walk
    ghost var walks: nat

    ghost predicate Valid()
      reads this
    {
      && walks == (if done then 1 else 0)
      && (done ==> byPath == Result(walk))
    }

    constructor ()
      ensures Valid() && !done
    {
      done, byPath, walks := false, map[], 0;
      walk := Walk(_ => None, "", "", [], false);
    }
  }

  datatype Walk = Walk(repo: Repo, from: string, to: string, paths: seq<string>, failed: bool)

  function Result(w: Walk): map<string, string> {
    if w.failed then map[] else Fresh(w.repo, w.from, w.to, w.paths)
  }

  method TreeBlobHashes(repo: Repo, from: string, to: string, paths: seq<string>, fails: bool)
    returns (hashes: Option<(map<string, string>, map<string, string>)>)
    ensures hashes == None <==> fails || repo(from) == None || repo(to) == None
    ensures hashes.Some? ==>
      && hashes.value.0 == (map p | p in paths && p in repo(from).value :: repo(from).value[p])
      && hashes.value.1 == (map p | p in paths && p in repo(to).value :: repo(to).value[p])
  {
    if fails || repo(from) == None || repo(to) == None { return None; }
    return Some((map p | p in paths && p in repo(from).value :: repo(from).value[p],
                 map p | p in paths && p in repo(to).value :: repo(to).value[p]));
  }

  // The walk, one path at a time.
  method WalkTrees(repo: Repo, from: string, to: string, paths: seq<string>, fails: bool)
    returns (byPath: map<string, string>)
    ensures byPath == if fails then map[] else Fresh(repo, from, to, paths)
  {
    byPath := map[];
    var hashes := TreeBlobHashes(repo, from, to, paths, fails);
    if hashes == None { return; }
    var (fromHashes, toHashes) := hashes.value;
    for i := 0 to |paths|
      invariant byPath == Fresh(repo, from, to, paths[..i])
    {
      var p := paths[i];
      assert paths[..i + 1] == paths[..i] + [p];
      if p in toHashes {
        if p !in fromHashes {
          byPath := byPath[p := NEW];
        } else if fromHashes[p] != toHashes[p] {
          byPath := byPath[p := CHANGED];
        }
      }
    }
    assert paths[..|paths|] == paths;
  }

  // The first caller walks, failure and all; everyone else reads its result,
  // whatever range it asks for itself.
  method FileStatusesOf(repo: Repo, from: string, to: string, paths: seq<string>, cache: FileStatusCache?, fails: bool)
    returns (statuses: map<string, string>)
    requires cache != null ==> cache.Valid()
    modifies cache
    ensures cache == null ==> statuses == Result(Walk(repo, from, to, paths, fails))
    ensures cache != null ==> cache.Valid() && cache.done && statuses == cache.byPath
    ensures cache != null && old(cache.done) ==> cache.byPath == old(cache.byPath) && cache.walk == old(cache.walk)
    ensures cache != null && !old(cache.done) ==> cache.walk == Walk(repo, from, to, paths, fails)
  {
    if cache == null {
      statuses := WalkTrees(repo, from, to, paths, fails);
      return;
    }
    if !cache.done {
      cache.byPath := WalkTrees(repo, from, to, paths, fails);
      cache.done := true;
      cache.walk, cache.walks := Walk(repo, from, to, paths, fails), cache.walks + 1;
    }
    return cache.byPath;
  }

  // ---- The inventory --------------------------------------------------------

  datatype File = File(path: string, missing: bool, status: string)

  predicate Unmarked(files: seq<File>) {
    forall i :: 0 <= i < |files| ==> files[i].status == ""
  }

  function Queried(files: seq<File>): (r: seq<string>)
    ensures forall p :: p in r <==> exists i :: 0 <= i < |files| && files[i].path == p && !files[i].missing
  {
    if files == [] then []
    else
      var n := |files| - 1;
      var before := Queried(files[..n]);
      assert forall i :: 0 <= i < n ==> files[..n][i] == files[i];
      if files[n].missing then before
      else
        assert forall p :: p in before ==> exists i :: 0 <= i < n && files[i].path == p && !files[i].missing;
        before + [files[n].path]
  }

  function Marked(f: File, statuses: map<string, string>): File {
    if !f.missing && f.path in statuses then f.(status := statuses[f.path]) else f
  }

  predicate AllMarked(listed: seq<File>, statuses: map<string, string>, files: seq<File>) {
    |files| == |listed| && forall i :: 0 <= i < |files| ==> files[i] == Marked(listed[i], statuses)
  }

  // listed is what the live directory holds, without markers.
  method InventoryOf(repo: Repo, from: string, to: string, listed: seq<File>, cache: FileStatusCache?, fails: bool)
    returns (files: seq<File>)
    requires Unmarked(listed) && (cache != null ==> cache.Valid())
    modifies cache
    ensures cache != null ==> cache.Valid()
    ensures from == "" || to == "" ==>
      files == listed && (cache != null ==> cache.done == old(cache.done) && cache.byPath == old(cache.byPath)
                                            && cache.walk == old(cache.walk))
    ensures from != "" && to != "" ==>
      && (cache == null ==> AllMarked(listed, Result(Walk(repo, from, to, Queried(listed), fails)), files))
      && (cache != null ==> cache.done && AllMarked(listed, cache.byPath, files))
      && (cache != null && old(cache.done) ==> cache.byPath == old(cache.byPath) && cache.walk == old(cache.walk))
      && (cache != null && !old(cache.done) ==> cache.walk == Walk(repo, from, to, Queried(listed), fails))
  {
    if from == "" || to == "" { return listed; }
    var statuses := FileStatusesOf(repo, from, to, Queried(listed), cache, fails);
    files := Mark(listed, statuses);
  }

  method Mark(listed: seq<File>, statuses: map<string, string>) returns (files: seq<File>)
    ensures AllMarked(listed, statuses, files)
  {
    files := listed;
    for i := 0 to |files|
      invariant |files| == |listed|
      invariant forall j :: i <= j < |files| ==> files[j] == listed[j]
      invariant forall j :: 0 <= j < i ==> files[j] == Marked(listed[j], statuses)
    {
      if files[i].missing { continue; }
      if files[i].path in statuses {
        files := files[i := files[i].(status := statuses[files[i].path])];
      }
    }
  }

  // ---- The commit count -----------------------------------------------------

  // The number of commits between two commits of a directory's repository, and
  // whether the walk hit its limit.
  type Counts = (string, string, string) -> Option<(int, bool)>

  const UNRESOLVED := (-1, false)

  datatype CountWalk = CountWalk(counts: Counts, dir: string, from: string, to: string, failed: bool)

  function Counted(w: CountWalk): (int, bool) {
    if w.failed || w.counts(w.dir, w.from, w.to) == None then UNRESOLVED else w.counts(w.dir, w.from, w.to).value
  }

  class CommitCountCache {
    var done: bool
    var count: (int, bool)
    ghost var walk: CountWalk
    ghost var walks: nat

    ghost predicate Valid()
      reads this
    {
      && walks == (if done then 1 else 0)
      && (done ==> count == Counted(walk))
    }

    constructor ()
      ensures Valid() && !done
    {
      done, count, walks := false, UNRESOLVED, 0;
      walk := CountWalk((_, _, _) => None, "", "", "", false);
    }
  }

  method CommitCount(counts: Counts, dir: string, from: string, to: string, cache: CommitCountCache?, fails: bool)
    returns (count: (int, bool))
    requires cache != null ==> cache.Valid()
    modifies cache
    ensures cache != null ==> cache.Valid()
    ensures dir == "" || from == "" || to == "" ==>
      count == UNRESOLVED && (cache != null ==> cache.done == old(cache.done) && cache.count == old(cache.count)
                                                && cache.walk == old(cache.walk))
    ensures dir != "" && from != "" && to != "" ==>
      && (cache == null ==> count == Counted(CountWalk(counts, dir, from, to, fails)))
      && (cache != null ==> cache.done && count == cache.count)
      && (cache != null && old(cache.done) ==> cache.count == old(cache.count) && cache.walk == old(cache.walk))
      && (cache != null && !old(cache.done) ==> cache.walk == CountWalk(counts, dir, from, to, fails))
  {
    if dir == "" || from == "" || to == "" { return UNRESOLVED; }
    if cache == null { return Counted(CountWalk(counts, dir, from, to, fails)); }
    if !cache.done {
      cache.count := if fails || counts(dir, from, to) == None then UNRESOLVED else counts(dir, from, to).value;
      cache.done := true;
      cache.walk, cache.walks := CountWalk(counts, dir, from, to, fails), cache.walks + 1;
    }
    return cache.count;
  }
}
