// Where the records in a signing daemon's memory come from, over any history of
// restarts, crashes and replaced files (pkg/approval/lock.go, sessions as in
// pkg/daemon/daemon.go).
module Provenance {
  import opened Records
  import opened Lock
  import opened Sessions

  // tr[i] is the world before event i.
  ghost predicate IsRun(k: Key, es: seq<Event>, tr: seq<World>) {
    && |tr| == |es| + 1 && tr[0].daemon.Down?
    && forall i: nat {:trigger IsStep(k, es, tr, i)} :: i < |es| ==> IsStep(k, es, tr, i)
  }

  predicate IsStep(k: Key, es: seq<Event>, tr: seq<World>, i: nat)
    requires i < |es| && |tr| == |es| + 1
  {
    tr[i + 1] == Next(Some(k), tr[i], es[i])
  }

  // The file carries a signature under k of these records.
  predicate Signs(k: Key, f: File, tasks: FileTasks) {
    && f.Doc? && f.content.mac.MacText? && f.content.mac.digest.Hmac? && f.content.mac.digest.key == k
    && f.content.mac.digest.payload.tasks == tasks
  }

  predicate CarriesDigestOf(k: Key, f: File, g: File) {
    f.Doc? && f.content.mac.MacText? && g.Doc? && g.content.mac.MacText? && f.content.mac.digest == g.content.mac.digest
  }

  // Without the key, whoever replaces the file can only reuse signatures that were
  // on disk before.
  ghost predicate NoForgery(k: Key, es: seq<Event>, tr: seq<World>)
    requires |tr| == |es| + 1
  {
    forall i: nat {:trigger IsStep(k, es, tr, i)} :: i < |es| && es[i].PlaceLock? ==> Reuses(k, tr, i, es[i].file)
  }

  ghost predicate Reuses(k: Key, tr: seq<World>, i: nat, f: File)
    requires i < |tr|
  {
    (exists tasks :: Signs(k, f, tasks)) ==> exists j: nat :: j <= i && CarriesDigestOf(k, f, tr[j].file)
  }

  predicate Unsigned(f: File) {
    f.Doc? && f.content.mac == NoMac && f.content.version <= V1
  }

  predicate Holds(f: File, id: string, r: Record) {
    f.Doc? && id in f.content.tasks && Decoded(f.content.tasks[id]) == r
  }

  // Written by some session, found in the file of the start, or placed in an
  // unsigned version 1 file, before event n.
  ghost predicate Sourced(es: seq<Event>, start: File, n: nat, id: string, r: Record) {
    || Holds(start, id, r)
    || (exists i: nat :: i < n <= |es| && es[i].RecordTask? && es[i].id == id && es[i].r == r)
    || (exists i: nat :: i < n <= |es| && es[i].PlaceLock? && Unsigned(es[i].file) && Holds(es[i].file, id, r))
  }

  ghost predicate AllSourced(es: seq<Event>, start: File, n: nat, tasks: RecordMap) {
    forall id :: id in tasks ==> Sourced(es, start, n, id, tasks[id])
  }

  ghost predicate FileOk(k: Key, es: seq<Event>, start: File, n: nat, f: File) {
    && (forall tasks :: Signs(k, f, tasks) ==> AllSourced(es, start, n, DecodedAll(tasks)))
    && (Unsigned(f) ==> AllSourced(es, start, n, DecodedAll(f.content.tasks)))
  }

  ghost predicate WorldOk(k: Key, es: seq<Event>, start: File, n: nat, w: World) {
    && FileOk(k, es, start, n, w.file)
    && (w.daemon.Up? ==> AllSourced(es, start, n, w.daemon.memory.tasks))
  }

  lemma SourcedLater(es: seq<Event>, start: File, m: nat, n: nat, tasks: RecordMap)
    requires AllSourced(es, start, m, tasks) && m <= n <= |es|
    ensures AllSourced(es, start, n, tasks)
  {
    forall id | id in tasks ensures Sourced(es, start, n, id, tasks[id]) {
      assert Sourced(es, start, m, id, tasks[id]);
    }
  }

  lemma FileOkLater(k: Key, es: seq<Event>, start: File, m: nat, n: nat, f: File)
    requires FileOk(k, es, start, m, f) && m <= n <= |es|
    ensures FileOk(k, es, start, n, f)
  {
    forall tasks | Signs(k, f, tasks) ensures AllSourced(es, start, n, DecodedAll(tasks)) {
      SourcedLater(es, start, m, n, DecodedAll(tasks));
    }
    if Unsigned(f) { SourcedLater(es, start, m, n, DecodedAll(f.content.tasks)); }
  }

  // What the daemon writes is as good as its memory.
  lemma SavedIsOk(k: Key, es: seq<Event>, start: File, n: nat, bootstrapped: bool, tasks: RecordMap)
    requires AllSourced(es, start, n, tasks)
    ensures FileOk(k, es, start, n, Doc(Saved(Some(k), bootstrapped, tasks)))
  {
    DecodeEncode(tasks);
  }

  // What it loads is as good as the file.
  lemma LoadedIsSourced(k: Key, es: seq<Event>, start: File, n: nat, f: File, writable: bool)
    requires FileOk(k, es, start, n, f) && LoadSpec(f, Some(k), writable).Ok?
    ensures AllSourced(es, start, n, LoadSpec(f, Some(k), writable).memory.tasks)
    ensures FileOk(k, es, start, n, LoadSpec(f, Some(k), writable).file)
  {
    if f.Doc? && Judge(k, f.content).Accept? {
      var tasks := DecodedAll(f.content.tasks);
      DecodeEncode(tasks);
      if f.content.mac != NoMac { assert Signs(k, f, EncodedAll(tasks)); }
      SavedIsOk(k, es, start, n, Judge(k, f.content).bootstrapped, tasks);
    }
  }

  lemma BootKeeps(k: Key, es: seq<Event>, start: File, n: nat, w: World, e: Event)
    requires WorldOk(k, es, start, n, w) && e.Boot?
    ensures WorldOk(k, es, start, n, Next(Some(k), w, e))
  {
    if w.daemon.Down? && StartSpec(Some(k), w.file, w.marker, e.enabled, e.io).Started? {
      var l := LoadSpec(w.file, Some(k), e.io.lockWritable);
      LoadedIsSourced(k, es, start, n, w.file, e.io.lockWritable);
      SavedIsOk(k, es, start, n, true, l.memory.tasks);
    }
  }

  lemma RecordKeeps(k: Key, es: seq<Event>, start: File, n: nat, w: World)
    requires n < |es| && es[n].RecordTask? && WorldOk(k, es, start, n, w)
    ensures WorldOk(k, es, start, n + 1, Next(Some(k), w, es[n]))
  {
    var e := es[n];
    FileOkLater(k, es, start, n, n + 1, w.file);
    if w.daemon.Up? {
      var m := w.daemon.memory;
      SourcedLater(es, start, n, n + 1, m.tasks);
      var tasks := Recorded(m.tasks, e.id, e.r);
      forall id | id in tasks ensures Sourced(es, start, n + 1, id, tasks[id]) {
        if id in m.tasks { assert Sourced(es, start, n + 1, id, m.tasks[id]); }
      }
      SavedIsOk(k, es, start, n + 1, m.bootstrapped, tasks);
    }
  }

  lemma OtherKeeps(k: Key, es: seq<Event>, start: File, n: nat, w: World, e: Event)
    requires WorldOk(k, es, start, n, w)
    requires e.RemoveTask? || e.CloseWindow? || e.Crash? || e.DeleteLock? || e.DeleteDb?
    ensures WorldOk(k, es, start, n, Next(Some(k), w, e))
  {
    if w.daemon.Up? {
      var m := w.daemon.memory;
      SavedIsOk(k, es, start, n, true, m.tasks);
      if e.RemoveTask? { SavedIsOk(k, es, start, n, m.bootstrapped, Removed(m.tasks, e.id)); }
    }
  }

  lemma PlaceKeeps(k: Key, es: seq<Event>, tr: seq<World>, n: nat)
    requires n < |es| && |tr| == |es| + 1 && es[n].PlaceLock? && Reuses(k, tr, n, es[n].file)
    requires forall j: nat :: j <= n ==> WorldOk(k, es, tr[0].file, n, tr[j])
    ensures WorldOk(k, es, tr[0].file, n + 1, Next(Some(k), tr[n], es[n]))
  {
    var f, start := es[n].file, tr[0].file;
    if tr[n].daemon.Up? { SourcedLater(es, start, n, n + 1, tr[n].daemon.memory.tasks); }
    forall tasks | Signs(k, f, tasks) ensures AllSourced(es, start, n + 1, DecodedAll(tasks)) {
      var j: nat :| j <= n && CarriesDigestOf(k, f, tr[j].file);
      assert Signs(k, tr[j].file, tasks) && WorldOk(k, es, start, n, tr[j]);
      SourcedLater(es, start, n, n + 1, DecodedAll(tasks));
    }
    if Unsigned(f) {
      forall id | id in f.content.tasks ensures Sourced(es, start, n + 1, id, Decoded(f.content.tasks[id])) {
        assert Holds(es[n].file, id, Decoded(f.content.tasks[id]));
      }
    }
  }

  lemma WorldOkLater(k: Key, es: seq<Event>, start: File, m: nat, n: nat, w: World)
    requires WorldOk(k, es, start, m, w) && m <= n <= |es|
    ensures WorldOk(k, es, start, n, w)
  {
    FileOkLater(k, es, start, m, n, w.file);
    if w.daemon.Up? { SourcedLater(es, start, m, n, w.daemon.memory.tasks); }
  }

  lemma {:induction false} WorldsAreOk(k: Key, es: seq<Event>, tr: seq<World>, n: nat)
    requires IsRun(k, es, tr) && NoForgery(k, es, tr) && n < |tr|
    requires FileOk(k, es, tr[0].file, 0, tr[0].file)
    ensures forall j: nat :: j <= n ==> WorldOk(k, es, tr[0].file, n, tr[j])
    decreases n
  {
    if n > 0 {
      var m, start := n - 1, tr[0].file;
      WorldsAreOk(k, es, tr, m);
      assert IsStep(k, es, tr, m);
      var e := es[m];
      if e.PlaceLock? {
        PlaceKeeps(k, es, tr, m);
      } else if e.RecordTask? {
        RecordKeeps(k, es, start, m, tr[m]);
      } else {
        if e.Boot? { BootKeeps(k, es, start, m, tr[m], e); } else { OtherKeeps(k, es, start, m, tr[m], e); }
        WorldOkLater(k, es, start, m, n, tr[n]);
      }
      forall j: nat | j <= n ensures WorldOk(k, es, start, n, tr[j]) {
        if j < n { WorldOkLater(k, es, start, m, n, tr[j]); }
      }
    }
  }

  // A signature in the file of the start covers the records of that file.
  ghost predicate PlainStart(k: Key, f: File) {
    forall tasks :: Signs(k, f, tasks) ==> tasks == EncodedAll(DecodedAll(f.content.tasks))
  }

  // In every history in which nobody forges a signature, each record in memory was
  // written by some session, came with the file of the start, or came from an
  // unsigned version 1 file that someone placed.
  lemma RecordsHaveASource(k: Key, es: seq<Event>, tr: seq<World>, n: nat, id: string)
    requires IsRun(k, es, tr) && NoForgery(k, es, tr) && n < |tr|
    requires PlainStart(k, tr[0].file)
    requires tr[n].daemon.Up? && id in tr[n].daemon.memory.tasks
    ensures
      var r := tr[n].daemon.memory.tasks[id];
      || Holds(tr[0].file, id, r)
      || (exists i: nat :: i < n && es[i].RecordTask? && es[i].id == id && es[i].r == r)
      || (exists i: nat :: i < n && es[i].PlaceLock? && Unsigned(es[i].file) && Holds(es[i].file, id, r))
  {
    var f := tr[0].file;
    if f.Doc? { DecodeEncode(DecodedAll(f.content.tasks)); }
    assert FileOk(k, es, f, 0, f);
    WorldsAreOk(k, es, tr, n);
    assert WorldOk(k, es, f, n, tr[n]);
    assert Sourced(es, f, n, id, tr[n].daemon.memory.tasks[id]);
  }

  // The last way is open: any records at all, placed in such a file, are loaded and
  // sealed with the daemon's own signature.
  lemma PlacedVersion1IsSealed(k: Key, w: World, tasks: RecordMap, flag: bool, io: Io)
    requires w.daemon.Down? && io.dbReadable && io.lockWritable
    ensures
      var forged := Doc(Content(V1, NoMac, flag, EncodedAll(tasks)));
      var w' := Next(Some(k), Next(Some(k), w, PlaceLock(forged)), Boot(true, io));
      && w'.daemon.Up? && w'.daemon.memory.tasks == tasks && !w'.daemon.memory.tampered
      && Signs(k, w'.file, EncodedAll(tasks)) && Genuine(k, w'.file.content)
  {
    DecodeEncode(tasks);
    JudgeIsGenuine(k, Saved(Some(k), true, tasks));
    JudgeIsGenuine(k, Saved(Some(k), false, tasks));
  }
}
