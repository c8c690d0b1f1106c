// The first-run bootstrap across restarts: startup, seeding, the closing of the
// window, crashes, and deletion of the lock or of the database
// (setupApprovalGate in pkg/daemon/daemon.go, pkg/daemon/bootstrap.go).
module Sessions {
  import opened Records
  import opened Lock
  import G = GateObject

  function ShouldBootstrap(lockExisted: bool, markerExists: bool, enabled: bool): bool {
    enabled && !lockExisted && !markerExists
  }

  // ---- One startup, in place ------------------------------------------------

  // The kv table, as far as the bootstrap marker is concerned.
  class Db {
    var marker: bool
    var readable: bool
    var writable: bool

    method SetBootstrapMarker() returns (ok: bool)
      modifies this`marker
      ensures ok == writable && marker == (old(marker) || ok)
    {
      ok := writable;
      if ok { marker := true; }
    }
  }

  datatype Io = Io(lockWritable: bool, dbReadable: bool, dbWritable: bool)

  datatype Started = Refused | Started(memory: Memory, file: File, marker: bool, window: bool)

  // What startup leaves behind.
  function StartSpec(key: Option<Key>, file: File, marker: bool, enabled: bool, io: Io): Started {
    var l := LoadSpec(file, key, io.lockWritable);
    if !io.dbReadable || l.Failed? then Refused
    else
      var marked := l.memory.bootstrapped || marker;
      if ShouldBootstrap(file != Missing, marked, enabled) then Started(l.memory, l.file, marker, true)
      else if enabled && file != Missing && !marked then
        Started(l.memory.(bootstrapped := io.lockWritable),
                if io.lockWritable then Doc(Saved(key, true, l.memory.tasks)) else l.file,
                io.dbWritable, false)
      else Started(l.memory, l.file, marker, false)
  }

  method SetupApprovalGate(disk: Disk, db: Db, key: Option<Key>, enabled: bool)
    returns (ok: bool, lock: Lock, window: bool)
    modifies disk`file, db`marker
    ensures fresh(lock) && lock.disk == disk && lock.signingKey == key
    ensures
      var r := StartSpec(key, old(disk.file), old(db.marker), enabled, Io(disk.writable, db.readable, db.writable));
      && ok == r.Started?
      && (ok ==> r == Started(lock.InMemory(), disk.file, db.marker, window))
      && (!ok ==> disk.file == old(disk.file) && db.marker == old(db.marker))
  {
    window := false;
    lock := new Lock(disk, key);
    var lockExisted := disk.file != Missing;
    if !db.readable { return false, lock, window; }
    var dbMarkerExists := db.marker;
    ok := lock.LoadSigned();
    if !ok { return; }
    var markerExists := lock.bootstrapped || dbMarkerExists;
    if ShouldBootstrap(lockExisted, markerExists, enabled) {
      window := true;
    } else if enabled && lockExisted && !markerExists {
      var saved := lock.MarkBootstrapped();
      var marked := db.SetBootstrapMarker();
    }
  }

  // ---- Whole histories ------------------------------------------------------

  datatype Daemon = Down | Up(memory: Memory, window: bool)

  datatype World = World(file: File, marker: bool, daemon: Daemon)

  datatype Event =
    | Boot(enabled: bool, io: Io)
    | RecordTask(id: string, r: Record, saved: bool)
    | RemoveTask(id: string, saved: bool)
    | CloseWindow(io: Io)
    | Crash
    | DeleteLock
    | DeleteDb
    | PlaceLock(file: File)                 // anyone replaces the file

  predicate Bootstraps(key: Option<Key>, w: World, e: Event) {
    && e.Boot? && w.daemon.Down?
    && StartSpec(key, w.file, w.marker, e.enabled, e.io).Started?
    && StartSpec(key, w.file, w.marker, e.enabled, e.io).window
  }

  function Persist(key: Option<Key>, w: World, m: Memory, saved: bool): World
    requires w.daemon.Up?
  {
    w.(file := if saved then Doc(Saved(key, m.bootstrapped, m.tasks)) else w.file,
       daemon := w.daemon.(memory := m))
  }

  function Next(key: Option<Key>, w: World, e: Event): World
  {
    match e
    case Boot(enabled, io) =>
      if w.daemon.Up? then w
      else
        var r := StartSpec(key, w.file, w.marker, enabled, io);
        if r.Refused? then w else World(r.file, r.marker, Up(r.memory, r.window))
    case RecordTask(id, r, saved) =>
      if w.daemon.Down? || r.hash == "" then w
      else
        var m := w.daemon.memory;
        if Approved(m.tasks, id, r.hash) then w
        else Persist(key, w, m.(tasks := Recorded(m.tasks, id, r)), saved)
    case RemoveTask(id, saved) =>
      if w.daemon.Down? || id !in w.daemon.memory.tasks then w
      else Persist(key, w, w.daemon.memory.(tasks := Removed(w.daemon.memory.tasks, id)), saved)
    case CloseWindow(io) =>
      if w.daemon.Down? || !w.daemon.window then w
      else
        var m := w.daemon.memory;
        var w' := if m.bootstrapped then w
                  else Persist(key, w, m.(bootstrapped := io.lockWritable), io.lockWritable);
        w'.(marker := w.marker || io.dbWritable, daemon := w'.daemon.(window := false))
    case Crash => w.(daemon := Down)
    case DeleteLock => w.(file := Missing)
    case DeleteDb => w.(marker := false)
    case PlaceLock(f) => w.(file := f)
  }

  function Exec(key: Option<Key>, w: World, es: seq<Event>): World
    decreases |es|
  {
    if es == [] then w else Exec(key, Next(key, w, es[0]), es[1..])
  }

  // The timer of the bootstrap window: the gate leaves bootstrap mode first, then both
  // markers are written, neither depending on the other.
  method CloseBootstrapWindow(gate: G.Gate, db: Db)
    modifies gate`bootstrap, gate.lock`bootstrapped, gate.lock.disk`file, db`marker
    ensures
      var lock := gate.lock;
      var before := World(old(lock.disk.file), old(db.marker), Up(old(lock.InMemory()), old(gate.bootstrap)));
      var io := Io(lock.disk.writable, db.readable, db.writable);
      World(lock.disk.file, db.marker, Up(lock.InMemory(), gate.bootstrap)) ==
        Next(lock.signingKey, before, CloseWindow(io))
  {
    var was := gate.FinishBootstrap();
    if was {
      var inLock := gate.lock.MarkBootstrapped();
      var inDb := db.SetBootstrapMarker();
    }
  }

  // A grant of the running gate, and a removal, are the events of the history.
  method RecordInSession(lock: Lock, db: Db, window: bool, id: string, r: Record)
    modifies lock`tasks, lock.disk`file
    ensures
      var before := World(old(lock.disk.file), db.marker, Up(old(lock.InMemory()), window));
      World(lock.disk.file, db.marker, Up(lock.InMemory(), window)) ==
        Next(lock.signingKey, before, RecordTask(id, r, lock.disk.writable))
  {
    var saved := lock.Record(id, r.hash, r.via, r.commit, r.at);
  }

  method RemoveInSession(lock: Lock, db: Db, window: bool, id: string)
    modifies lock`tasks, lock.disk`file
    ensures
      var before := World(old(lock.disk.file), db.marker, Up(old(lock.InMemory()), window));
      World(lock.disk.file, db.marker, Up(lock.InMemory(), window)) ==
        Next(lock.signingKey, before, RemoveTask(id, lock.disk.writable))
  {
    var saved := lock.Remove(id);
    assert id !in old(lock.tasks) ==> old(lock.tasks) - {id} == old(lock.tasks);
  }

  // What a startup makes of what it loaded. Adopting a lock without the flag, with the
  // policy on and no marker in the database, sets the flag where the write works, and
  // the marker likewise; any other startup leaves lock and marker as they were loaded,
  // and only one without a lock and without a marker opens the window.
  lemma StartExactly(key: Option<Key>, file: File, marker: bool, enabled: bool, io: Io)
    ensures StartSpec(key, file, marker, enabled, io) == Refused <==>
      !io.dbReadable || LoadSpec(file, key, io.lockWritable) == Failed
    ensures StartSpec(key, file, marker, enabled, io).Started? ==>
      var loaded, started := LoadSpec(file, key, io.lockWritable), StartSpec(key, file, marker, enabled, io);
      var adopts := enabled && file != Missing && !loaded.memory.bootstrapped && !marker;
      && started.window == (enabled && file == Missing && !marker)
      && started.marker == (marker || (adopts && io.dbWritable))
      && started.memory ==
           loaded.memory.(bootstrapped := loaded.memory.bootstrapped || (adopts && io.lockWritable))
      && started.file ==
           (if adopts && io.lockWritable then Doc(Saved(key, true, loaded.memory.tasks)) else loaded.file)
  {
  }

  // Some startup in the history opens the bootstrap window.
  predicate Reenters(key: Option<Key>, w: World, es: seq<Event>)
    decreases |es|
  {
    es != [] && (Bootstraps(key, w, es[0]) || Reenters(key, Next(key, w, es[0]), es[1..]))
  }

  // The lock's own flag cannot be what stops a startup: it is read from a lock
  // that then existed.
  lemma BootstrapsExactly(key: Option<Key>, w: World, e: Event)
    ensures Bootstraps(key, w, e) <==>
      e.Boot? && w.daemon.Down? && e.enabled && e.io.dbReadable && w.file == Missing && !w.marker
  {
  }

  // With the marker in the database, no history that leaves the database alone
  // re-enters bootstrap, whatever happens to the lock.
  lemma {:induction false} LockLossFailsClosed(key: Option<Key>, w: World, es: seq<Event>)
    requires w.marker && DeleteDb !in es
    ensures !Reenters(key, w, es) && Exec(key, w, es).marker
    decreases |es|
  {
    if es != [] {
      assert DeleteDb !in es[1..];
      LockLossFailsClosed(key, Next(key, w, es[0]), es[1..]);
    }
  }

  // With a lock on disk, no history that leaves it there does, whatever happens
  // to the database.
  lemma {:induction false} DbLossFailsClosed(key: Option<Key>, w: World, es: seq<Event>)
    requires w.file != Missing && DeleteLock !in es && PlaceLock(Missing) !in es
    ensures !Reenters(key, w, es) && Exec(key, w, es).file != Missing
    decreases |es|
  {
    if es != [] {
      assert es[0] in es && forall e :: e in es[1..] ==> e in es;
      DbLossFailsClosed(key, Next(key, w, es[0]), es[1..]);
    }
  }

  // While the window is open the lock does not carry the flag yet.
  lemma {:induction false} WindowMeansUnmarked(key: Option<Key>, w: World, es: seq<Event>)
    requires w.daemon.Up? && w.daemon.window ==> !w.daemon.memory.bootstrapped
    ensures var d := Exec(key, w, es).daemon; d.Up? && d.window ==> !d.memory.bootstrapped
    decreases |es|
  {
    if es != [] { WindowMeansUnmarked(key, Next(key, w, es[0]), es[1..]); }
  }

  // A first run whose window closed with both writes done is never followed by
  // another one unless both the lock and the database are lost later.
  lemma FirstRunIsFinal(key: Option<Key>, w: World, before: seq<Event>, io: Io, after: seq<Event>)
    requires w.daemon.Down?
    requires Exec(key, w, before).daemon.Up? && Exec(key, w, before).daemon.window
    requires io.lockWritable && io.dbWritable
    requires Reenters(key, Next(key, Exec(key, w, before), CloseWindow(io)), after)
    ensures DeleteDb in after && (DeleteLock in after || PlaceLock(Missing) in after)
  {
    WindowMeansUnmarked(key, w, before);
    var w' := Next(key, Exec(key, w, before), CloseWindow(io));
    if DeleteDb !in after { LockLossFailsClosed(key, w', after); }
    if DeleteLock !in after && PlaceLock(Missing) !in after { DbLossFailsClosed(key, w', after); }
  }

  // The same once a startup has adopted a lock that carried no marker.
  lemma AdoptionIsFinal(key: Option<Key>, w: World, io: Io, es: seq<Event>)
    requires w.daemon.Down? && w.file != Missing && io.dbReadable && io.dbWritable
    requires LoadSpec(w.file, key, io.lockWritable).Ok? && !LoadSpec(w.file, key, io.lockWritable).memory.bootstrapped
    requires Reenters(key, Next(key, w, Boot(true, io)), es)
    ensures DeleteDb in es && (DeleteLock in es || PlaceLock(Missing) in es)
  {
    var w' := Next(key, w, Boot(true, io));
    if DeleteDb !in es { LockLossFailsClosed(key, w', es); }
    if DeleteLock !in es && PlaceLock(Missing) !in es { DbLossFailsClosed(key, w', es); }
  }

  // A startup that finds a lock leaves the database marker set exactly when it was
  // set, or the policy is on, the lock does not carry the flag and the write works: a
  // lock that carries it hides a lost marker.
  lemma MarkerBackfill(key: Option<Key>, w: World, enabled: bool, io: Io)
    requires w.daemon.Down? && w.file != Missing && Next(key, w, Boot(enabled, io)).daemon.Up?
    ensures Next(key, w, Boot(enabled, io)).marker <==>
      || w.marker
      || (enabled && io.dbWritable && !LoadSpec(w.file, key, io.lockWritable).memory.bootstrapped)
  {
  }

  // So after a completed first run of a signing daemon, losing the database,
  // restarting, and only then losing the lock does lead to a second one.
  lemma SeparateLossesReenter(k: Key, tasks: RecordMap, io: Io)
    requires io.dbReadable && io.dbWritable && io.lockWritable
    ensures
      var key := Some(k);
      var done := World(Doc(Saved(key, true, tasks)), true, Down);
      Reenters(key, done, [DeleteDb, Boot(true, io), Crash, DeleteLock, Boot(true, io)])
  {
    var key := Some(k);
    var boot := Boot(true, io);
    var w0 := World(Doc(Saved(key, true, tasks)), true, Down);
    var es := [DeleteDb, boot, Crash, DeleteLock, boot];
    LoadAfterSave(key, true, tasks, true);
    var w1 := Next(key, w0, DeleteDb);
    var w2 := Next(key, w1, boot);
    assert !w2.marker;
    var w3 := Next(key, w2, Crash);
    var w4 := Next(key, w3, DeleteLock);
    assert Bootstraps(key, w4, boot);
    assert es[1..] == [boot, Crash, DeleteLock, boot];
    assert es[1..][1..] == [Crash, DeleteLock, boot];
    assert es[1..][1..][1..] == [DeleteLock, boot];
    assert es[1..][1..][1..][1..] == [boot];
    assert Reenters(key, w4, [boot]);
    assert Reenters(key, w3, [DeleteLock, boot]);
    assert Reenters(key, w2, [Crash, DeleteLock, boot]);
    assert Reenters(key, w1, [boot, Crash, DeleteLock, boot]);
  }

  // Events of one session, before its window closes or anything is deleted.
  predicate Seeding(e: Event) {
    e.RecordTask? || e.RemoveTask?
  }

  // e would put a lock file on disk: a save that has something to write.
  predicate Saves(w: World, e: Event)
    requires w.daemon.Up?
  {
    || (e.RecordTask? && e.saved && e.r.hash != "" && !Approved(w.daemon.memory.tasks, e.id, e.r.hash))
    || (e.RemoveTask? && e.saved && e.id in w.daemon.memory.tasks)
  }

  predicate SomeSave(key: Option<Key>, w: World, es: seq<Event>)
    decreases |es|
  {
    && es != [] && w.daemon.Up?
    && (Saves(w, es[0]) || SomeSave(key, Next(key, w, es[0]), es[1..]))
  }

  // A crash during the first run is followed by another one exactly when no
  // record had reached the disk.
  lemma {:induction false} CrashDuringBootstrap(key: Option<Key>, w: World, es: seq<Event>, io: Io)
    requires w.daemon.Up? && w.file == Missing && !w.marker && io.dbReadable
    requires forall e :: e in es ==> Seeding(e)
    ensures Bootstraps(key, Next(key, Exec(key, w, es), Crash), Boot(true, io)) <==> !SomeSave(key, w, es)
    decreases |es|
  {
    if es != [] {
      assert es[0] in es && forall e :: e in es[1..] ==> e in es;
      var w' := Next(key, w, es[0]);
      if Saves(w, es[0]) {
        assert forall e :: e in es[1..] ==> Seeding(e);
        DbLossFailsClosed(key, w', es[1..]);
      } else {
        CrashDuringBootstrap(key, w', es[1..], io);
      }
    }
  }
}
