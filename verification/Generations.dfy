// The pending table with the caches of each generation, and its renderers
// (pkg/approval/gate.go, pkg/approval/state.go). Whatever is rendered, from a copy
// of an entry however old, is about the commit range of that very entry: Admit
// installs fresh caches with every entry it publishes, copies share them, and a
// renderer takes the range and the caches from one entry.
module Generations {
  import opened Records
  import opened GateModel
  import opened Markers

  // A pending entry with its two caches, as it is copied out of the table.
  datatype Generation = Generation(ent: Entry, status: FileStatusCache, commits: CommitCountCache)

  class PendingTable {
    const repo: Repo
    const counts: Counts
    const dirOf: Task -> string          // empty for an inline task
    var pending: map<string, Generation>
    ghost var published: set<Generation>

    ghost predicate Valid()
      reads this, (set h | h in published :: h.status), (set h | h in published :: h.commits)
    {
      && (forall id :: id in pending ==> pending[id] in published && pending[id].ent.task.id == id)
      && (forall h :: h in published ==> Own(h))
      && (forall g, h | g in published && h in published ::
            g.status == h.status || g.commits == h.commits ==> g == h)
    }

    // The caches of h describe the range of h and nothing else.
    ghost predicate Own(h: Generation)
      reads h.status, h.commits
    {
      && h.status.Valid() && h.commits.Valid()
      && (h.status.done ==>
            h.status.walk == Walk(repo, h.ent.base, h.ent.commit, h.status.walk.paths, h.status.walk.failed))
      && (h.commits.done ==>
            h.commits.walk == CountWalk(counts, dirOf(h.ent.task), h.ent.base, h.ent.commit, h.commits.walk.failed))
    }

    constructor (repo: Repo, counts: Counts, dirOf: Task -> string)
      ensures Valid() && pending == map[] && published == {}
      ensures this.repo == repo && this.counts == counts && this.dirOf == dirOf
    {
      this.repo, this.counts, this.dirOf := repo, counts, dirOf;
      pending, published := map[], {};
    }

    // The publishing step of Admit: always a new entry with new caches.
    method Hold(ent: Entry) returns (h: Generation)
      requires Valid()
      modifies this
      ensures Valid() && fresh(h.status) && fresh(h.commits) && h.ent == ent
      ensures pending == old(pending)[ent.task.id := h] && published == old(published) + {h}
      ensures !h.status.done && !h.commits.done
    {
      var status := new FileStatusCache();
      var commits := new CommitCountCache();
      h := Generation(ent, status, commits);
      pending := pending[ent.task.id := h];
      published := published + {h};
    }

    method Clear(id: string)
      requires Valid()
      modifies this
      ensures Valid() && pending == old(pending) - {id} && published == old(published)
    {
      pending := pending - {id};
    }

    // The one locked read.
    method EntryFor(id: string) returns (h: Option<Generation>)
      requires Valid()
      ensures h == if id in pending then Some(pending[id]) else None
      ensures h.Some? ==> h.value in published
    {
      h := if id in pending then Some(pending[id]) else None;
    }

    // Renders a copy of an entry: current, or replaced or cleared since.
    method Render(h: Generation, listed: seq<File>, fails: bool) returns (files: seq<File>)
      requires Valid() && h in published && Unmarked(listed)
      modifies h.status
      ensures Valid()
      // A marker is the true status between this entry's commits.
      ensures |files| == |listed| && forall i :: 0 <= i < |files| ==>
        files[i] == listed[i].(status := files[i].status)
        && (files[i].status != "" ==>
              !files[i].missing && Status(repo, h.ent.base, h.ent.commit, files[i].path) == Some(files[i].status))
      // New: only the commit approved now has the file; changed: both have it, differently.
      ensures forall i :: 0 <= i < |files| ==>
        var before, now := repo(h.ent.base), repo(h.ent.commit);
        && (files[i].status == "new" ==>
              && before.Some? && now.Some? && !files[i].missing
              && files[i].path in now.value && files[i].path !in before.value)
        && (files[i].status == "changed" ==>
              && before.Some? && now.Some? && !files[i].missing
              && files[i].path in now.value && files[i].path in before.value
              && before.value[files[i].path] != now.value[files[i].path])
        && files[i].status in {"", "new", "changed"}
      // Every render of the generation shows the result of one walk.
      ensures h.ent.base != "" && h.ent.commit != "" ==> h.status.done && AllMarked(listed, h.status.byPath, files)
      ensures h.ent.base == "" || h.ent.commit == "" ==> files == listed && h.status.done == old(h.status.done)
      ensures old(h.status.done) ==> h.status.done && h.status.byPath == old(h.status.byPath)
      ensures h.status.walks <= 1
      // A file's marker is missing exactly when the walk failed or did not ask for it;
      // the render that walks asks for all of its own.
      ensures h.ent.base != "" && h.ent.commit != "" ==>
        forall i :: 0 <= i < |files| && !files[i].missing ==>
          var truly := Status(repo, h.ent.base, h.ent.commit, files[i].path);
          var shown := if files[i].status == "" then None else Some(files[i].status);
          shown == truly <==> (!h.status.walk.failed && files[i].path in h.status.walk.paths) || truly == None
      ensures !old(h.status.done) && h.ent.base != "" && h.ent.commit != "" ==>
        h.status.walk.paths == Queried(listed) && h.status.walk.failed == fails
    {
      assert Own(h);
      forall path { StatusExactly(repo, h.ent.base, h.ent.commit, path); }
      files := InventoryOf(repo, h.ent.base, h.ent.commit, listed, h.status, fails);
    }

    // The commit count of a copy of an entry.
    method Count(h: Generation, fails: bool) returns (count: (int, bool))
      requires Valid() && h in published
      modifies h.commits
      ensures Valid()
      ensures count == UNRESOLVED || Some(count) == counts(dirOf(h.ent.task), h.ent.base, h.ent.commit)
      ensures old(h.commits.done) ==> h.commits.done && h.commits.count == old(h.commits.count)
      ensures dirOf(h.ent.task) != "" && h.ent.base != "" && h.ent.commit != "" ==>
        h.commits.done && count == h.commits.count
      ensures dirOf(h.ent.task) == "" || h.ent.base == "" || h.ent.commit == "" ==> count == UNRESOLVED
      ensures h.commits.walks <= 1
      // A count there is, is told, unless the one walk failed.
      ensures dirOf(h.ent.task) != "" && h.ent.base != "" && h.ent.commit != "" ==>
        && (!h.commits.walk.failed && counts(dirOf(h.ent.task), h.ent.base, h.ent.commit).Some? ==>
              Some(count) == counts(dirOf(h.ent.task), h.ent.base, h.ent.commit))
        && (!old(h.commits.done) ==> h.commits.walk.failed == fails)
    {
      assert Own(h);
      count := CommitCount(counts, dirOf(h.ent.task), h.ent.base, h.ent.commit, h.commits, fails);
    }

    // StateFor and PendingApproval: one locked read, then only what it gave.
    method StateFor(id: string, listed: seq<File>, fails: bool) returns (hash: string, files: seq<File>)
      requires Valid() && Unmarked(listed)
      modifies set h | h in published :: h.status
      ensures Valid()
      ensures id !in pending ==> hash == "" && files == listed
      ensures id in pending ==>
        var ent := pending[id].ent;
        && hash == ent.hash && |files| == |listed|
        && forall i :: 0 <= i < |files| && files[i].status != "" ==>
             Status(repo, ent.base, ent.commit, files[i].path) == Some(files[i].status)
    {
      var h := EntryFor(id);
      if h == None { return "", listed; }
      files := Render(h.value, listed, fails);
      hash := h.value.ent.hash;
    }

    method PendingApproval(id: string, fails: bool)
      returns (found: bool, hash: string, from: string, to: string, count: (int, bool))
      requires Valid()
      modifies set h | h in published :: h.commits
      ensures Valid() && found == (id in pending)
      ensures found ==>
        var ent := pending[id].ent;
        && hash == ent.hash && from == ent.base && to == ent.commit
        && (count == UNRESOLVED || Some(count) == counts(dirOf(ent.task), ent.base, ent.commit))
    {
      var h := EntryFor(id);
      if h == None { return false, "", "", "", UNRESOLVED; }
      count := Count(h.value, fails);
      return true, h.value.ent.hash, h.value.ent.base, h.value.ent.commit, count;
    }
  }

  // ---- Any sequence of admits, clears and renders ------------------------------

  datatype Op =
    | Publish(ent: Entry)
    | Withdraw(id: string)
    | Copy(id: string)                                   // a renderer reads the entry
    | Show(copy: nat, listed: seq<File>, fails: bool)    // and renders it, any time later
    | Tally(copy: nat, fails: bool)

  datatype Page = Page(h: Generation, listed: seq<File>, files: seq<File>)

  predicate Ranged(ent: Entry) {
    ent.base != "" && ent.commit != ""
  }

  // Every marker is the status between the entry's commits.
  predicate MarkedTruly(repo: Repo, ent: Entry, files: seq<File>) {
    forall i :: 0 <= i < |files| && files[i].status != "" ==>
      Status(repo, ent.base, ent.commit, files[i].path) == Some(files[i].status)
  }

  // The same file is marked the same.
  predicate Agree(a: seq<File>, b: seq<File>) {
    forall i, j :: 0 <= i < |a| && 0 <= j < |b| && a[i].path == b[j].path && !a[i].missing && !b[j].missing ==>
      a[i].status == b[j].status
  }

  // A page shows what the one walk of its generation gave.
  ghost predicate Shows(table: PendingTable, p: Page)
    reads table, p.h.status
  {
    && p.h in table.published && Unmarked(p.listed)
    && if Ranged(p.h.ent) then p.h.status.done && AllMarked(p.listed, p.h.status.byPath, p.files)
       else p.files == p.listed
  }

  ghost predicate Tells(table: PendingTable, h: Generation, count: (int, bool))
    reads table, h.commits
  {
    && h in table.published
    && if Ranged(h.ent) && table.dirOf(h.ent.task) != "" then h.commits.done && count == h.commits.count
       else count == UNRESOLVED
  }

  // However admits, clears and renders of old and new copies alternate: a marker is
  // the true status for its page's generation, and two pages of one generation
  // agree on every file and two counts of one generation are the same.
  method Session(table: PendingTable, ops: seq<Op>)
    returns (pages: seq<Page>, counts: seq<(Generation, (int, bool))>)
    requires table.Valid() && table.published == {}
    requires forall i :: 0 <= i < |ops| && ops[i].Show? ==> Unmarked(ops[i].listed)
    modifies table
    ensures table.Valid()
    ensures forall p :: p in pages ==> MarkedTruly(table.repo, p.h.ent, p.files)
    ensures forall p, q :: p in pages && q in pages && p.h == q.h ==> Agree(p.files, q.files)
    ensures forall c :: c in counts ==>
      c.1 == UNRESOLVED || Some(c.1) == table.counts(table.dirOf(c.0.ent.task), c.0.ent.base, c.0.ent.commit)
    ensures forall c, d :: c in counts && d in counts && c.0 == d.0 ==> c.1 == d.1
  {
    pages, counts := [], [];
    var copies: seq<Generation> := [];
    for k := 0 to |ops|
      invariant table.Valid()
      invariant forall h :: h in table.published ==> fresh(h.status) && fresh(h.commits)
      invariant forall h :: h in copies ==> h in table.published
      invariant forall p :: p in pages ==> Shows(table, p)
      invariant forall c :: c in counts ==> Tells(table, c.0, c.1)
    {
      match ops[k] {
        case Publish(ent) => var h := table.Hold(ent);
        case Withdraw(id) => table.Clear(id);
        case Copy(id) =>
          var h := table.EntryFor(id);
          if h.Some? { copies := copies + [h.value]; }
        case Show(copy, listed, fails) =>
          if copy < |copies| {
            var files := table.Render(copies[copy], listed, fails);
            pages := pages + [Page(copies[copy], listed, files)];
          }
        case Tally(copy, fails) =>
          if copy < |copies| {
            var count := table.Count(copies[copy], fails);
            counts := counts + [(copies[copy], count)];
          }
      }
    }
    forall p | p in pages ensures MarkedTruly(table.repo, p.h.ent, p.files) {
      assert Shows(table, p) && table.Own(p.h);
    }
    forall c | c in counts ensures table.Own(c.0) { assert Tells(table, c.0, c.1); }
  }
}
