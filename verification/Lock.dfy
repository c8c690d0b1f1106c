// dicode.lock: the in-memory lock, its file, and the signatures of the three
// file versions (pkg/approval/lock.go).
module Lock {
  import opened Records

  // ---- The file -------------------------------------------------------------

  // A record as the file holds it: the commit field may be absent, and the
  // writer leaves it out when it is empty.
  datatype FileRecord = FileRecord(hash: string, at: int, via: By, commit: Option<string>)

  function Encoded(r: Record): FileRecord {
    FileRecord(r.hash, r.at, r.via, if r.commit == "" then None else Some(r.commit))
  }

  function Decoded(f: FileRecord): Record {
    Record(f.hash, f.at, f.via, if f.commit.None? then "" else f.commit.value)
  }

  type FileTasks = map<string, FileRecord>

  function EncodedAll(tasks: RecordMap): FileTasks {
    map id | id in tasks :: Encoded(tasks[id])
  }

  function DecodedAll(tasks: FileTasks): RecordMap {
    map id | id in tasks :: Decoded(tasks[id])
  }

  // The canonical JSON a signature covers, and the signature as an injective
  // function of key and payload. The text of a signature is hex, in any mix of
  // upper and lower case.
  datatype Payload = PayloadV2(tasks: FileTasks) | PayloadV3(bootstrapped: bool, tasks: FileTasks)

  type Key = nat

  datatype Digest = Hmac(key: Key, payload: Payload) | Other(bytes: int)

  datatype Mac = NoMac | MacText(digest: Digest, casing: int)

  datatype Content = Content(version: int, mac: Mac, bootstrapped: bool, tasks: FileTasks)

  datatype File = Missing | Unreadable | Unparsable | Doc(content: Content)

  const V1 := 1
  const V2 := 2
  const V3 := 3

  function PayloadOf(bootstrapped: bool, tasks: RecordMap): Payload {
    PayloadV3(bootstrapped, EncodedAll(tasks))
  }

  function Saved(key: Option<Key>, bootstrapped: bool, tasks: RecordMap): Content {
    match key
    case Some(k) => Content(V3, MacText(Hmac(k, PayloadOf(bootstrapped, tasks)), 0), bootstrapped, EncodedAll(tasks))
    case None => Content(V1, NoMac, bootstrapped, EncodedAll(tasks))
  }

  // ---- What loading accepts -------------------------------------------------

  datatype Memory = Memory(tasks: RecordMap, bootstrapped: bool, tampered: bool)

  datatype Verdict = Accept(bootstrapped: bool, rewrite: bool) | Reject

  // Which contents a signing daemon accepts, from the format's own rules.
  function Judge(k: Key, c: Content): Verdict {
    if c.mac == NoMac then
      if c.version <= V1 then Accept(false, true) else Reject
    else if c.version == V2 && c.mac.digest == Hmac(k, PayloadV2(EncodedAll(DecodedAll(c.tasks))))
    then Accept(false, true)
    else if c.version == V3 && c.mac.digest == Hmac(k, PayloadOf(c.bootstrapped, DecodedAll(c.tasks))) then
      Accept(c.bootstrapped, false)
    else Reject
  }

  datatype Loaded = Failed | Ok(memory: Memory, file: File)

  // The outcome of loading: what is in memory, and the file afterwards.
  function LoadSpec(file: File, key: Option<Key>, writable: bool): Loaded {
    match file
    case Missing => Ok(Memory(map[], false, false), file)
    case Unreadable => Failed
    case Unparsable => Failed
    case Doc(c) =>
      if key == None then Ok(Memory(DecodedAll(c.tasks), false, false), file)
      else
        match Judge(key.value, c)
        case Reject => Ok(Memory(map[], false, true), file)
        case Accept(bootstrapped, rewrite) =>
          var m := Memory(DecodedAll(c.tasks), bootstrapped, false);
          if !rewrite then Ok(m, file)
          else if writable then Ok(m, Doc(Saved(key, bootstrapped, m.tasks)))
          else Failed
  }

  // ---- The lock object ------------------------------------------------------

  // The directory dicode.lock lives in. A write replaces the file whole or
  // leaves it alone.
  class Disk {
    var file: File
    var writable: bool

    method WriteFileAtomic(c: Content) returns (ok: bool)
      modifies this`file
      ensures ok == writable
      ensures file == if ok then Doc(c) else old(file)
    {
      ok := writable;
      if ok { file := Doc(c); }
    }
  }

  class Lock {
    const disk: Disk
    const signingKey: Option<Key>
    var tampered: bool
    var bootstrapped: bool
    var tasks: RecordMap

    constructor (disk: Disk, key: Option<Key>)
      ensures this.disk == disk && signingKey == key
      ensures tasks == map[] && !bootstrapped && !tampered
    {
      this.disk := disk;
      signingKey := key;
      tampered, bootstrapped, tasks := false, false, map[];
    }

    function InMemory(): Memory
      reads this
    {
      Memory(tasks, bootstrapped, tampered)
    }

    method Save() returns (ok: bool)
      modifies disk`file
      ensures ok == disk.writable
      ensures disk.file == if ok then Doc(Saved(signingKey, bootstrapped, tasks)) else old(disk.file)
      ensures ok ==>
        var c := disk.file.content;
        && c.version == (if signingKey.Some? then 3 else 1) && c.bootstrapped == bootstrapped
        && (c.mac == NoMac <==> signingKey == None) && c.tasks.Keys == tasks.Keys
    {
      var version, mac := V3, NoMac;
      if signingKey.Some? {
        mac := MacText(Hmac(signingKey.value, PayloadV3(bootstrapped, EncodedAll(tasks))), 0);
      } else {
        version := V1;
      }
      ok := disk.WriteFileAtomic(Content(version, mac, bootstrapped, EncodedAll(tasks)));
    }

    // Discard everything: the file cannot be trusted.
    method FailClosed()
      modifies this
      ensures InMemory() == Memory(map[], false, true)
    {
      tampered, bootstrapped, tasks := true, false, map[];
    }

    // Reads the file into a freshly constructed lock; ok is false when the daemon
    // cannot start with this file.
    method LoadSigned() returns (ok: bool)
      requires tasks == map[] && !bootstrapped && !tampered
      modifies this, disk`file
      ensures ok <==> LoadSpec(old(disk.file), signingKey, disk.writable).Ok?
      ensures ok ==> LoadSpec(old(disk.file), signingKey, disk.writable) == Ok(InMemory(), disk.file)
      ensures !ok ==> disk.file == old(disk.file)
    {
      if disk.file == Missing { return true; }
      if disk.file.Unreadable? || disk.file.Unparsable? { return false; }
      var lf := disk.file.content;
      tasks := DecodedAll(lf.tasks);
      if signingKey == None { return true; }
      var key := signingKey.value;
      if lf.mac == NoMac {
        if lf.version > V1 { FailClosed(); return true; }
        ok := Save();
        return;
      }
      if lf.version == V2 {
        if lf.mac.digest != Hmac(key, PayloadV2(EncodedAll(tasks))) { FailClosed(); return true; }
        bootstrapped := false;
        ok := Save();
        return;
      } else if lf.version == V3 {
        bootstrapped := lf.bootstrapped;
        if lf.mac.digest != Hmac(key, PayloadV3(bootstrapped, EncodedAll(tasks))) { FailClosed(); }
        return true;
      } else {
        FailClosed();
        return true;
      }
    }

    method IsApproved(id: string, hash: string) returns (r: bool)
      ensures r == Approved(tasks, id, hash)
      ensures r <==> hash != "" && id in tasks && tasks[id].hash == hash
    {
      r := hash != "" && id in tasks && tasks[id].hash == hash;
    }

    // Memory keeps the record even when the save fails; nothing happens at an
    // unchanged hash.
    method Record(id: string, hash: string, via: By, commit: string, now: int) returns (ok: bool)
      modifies this`tasks, disk`file
      ensures hash != "" ==> tasks == Recorded(old(tasks), id, Records.Record(hash, now, via, commit))
      // An empty hash is refused; at an unchanged hash time, origin and commit stay.
      ensures
        var known := id in old(tasks) && old(tasks)[id].hash == hash;
        && ok == (hash != "" && (known || disk.writable))
        && tasks == (if hash == "" || known then old(tasks)
                     else old(tasks)[id := Records.Record(hash, now, via, commit)])
        && disk.file == (if hash == "" || known || !disk.writable then old(disk.file)
                         else Doc(Saved(signingKey, bootstrapped, tasks)))
    {
      if hash == "" { return false; }
      if id in tasks && tasks[id].hash == hash { return true; }
      tasks := tasks[id := Records.Record(hash, now, via, commit)];
      assert id in old(tasks) ==> old(tasks)[id] != tasks[id];
      ok := Save();
    }

    method Remove(id: string) returns (ok: bool)
      modifies this`tasks, disk`file
      ensures tasks == Removed(old(tasks), id) == old(tasks) - {id}
      ensures ok == (disk.writable || id !in old(tasks))
      ensures disk.file == if id in old(tasks) && disk.writable
                           then Doc(Saved(signingKey, bootstrapped, tasks)) else old(disk.file)
    {
      if id !in tasks { return true; }
      tasks := tasks - {id};
      ok := Save();
    }

    // The flag is rolled back when it cannot be saved, so a later call retries.
    method MarkBootstrapped() returns (ok: bool)
      modifies this`bootstrapped, disk`file
      ensures ok == bootstrapped == (old(bootstrapped) || disk.writable)
      ensures disk.file == if !old(bootstrapped) && disk.writable
                           then Doc(Saved(signingKey, true, tasks)) else old(disk.file)
    {
      if bootstrapped { return true; }
      bootstrapped := true;
      ok := Save();
      if !ok { bootstrapped := false; }
    }
  }

  // ---- What the format guarantees -------------------------------------------

  lemma DecodeEncode(tasks: RecordMap)
    ensures DecodedAll(EncodedAll(tasks)) == tasks
  {
  }

  // An empty and an absent commit are one record, signed alike.
  lemma EmptyCommitSignsAsAbsent(f: FileRecord)
    requires f.commit == None || f.commit == Some("")
    ensures Encoded(Decoded(f)) == f.(commit := None)
  {
  }

  // A signed save is read back as it was, without being rewritten; an unsigned
  // one keeps the records but not the flag.
  lemma LoadAfterSave(key: Option<Key>, bootstrapped: bool, tasks: RecordMap, writable: bool)
    ensures
      var f := Doc(Saved(key, bootstrapped, tasks));
      LoadSpec(f, key, writable) == Ok(Memory(tasks, bootstrapped && key.Some?, false), f)
  {
    DecodeEncode(tasks);
  }

  // What a daemon of the previous format wrote: the flag, if any, is unsigned.
  function SavedV2(k: Key, tasks: RecordMap, bootstrapped: bool): Content {
    Content(2, MacText(Hmac(k, PayloadV2(EncodedAll(tasks))), 0), bootstrapped, EncodedAll(tasks))
  }

  // The same file up to the case of its signature and to whether an empty
  // commit is spelled out.
  predicate SameFile(a: Content, b: Content) {
    && a.version == b.version && a.mac.MacText? && b.mac.MacText? && a.mac.digest == b.mac.digest
    && a.bootstrapped == b.bootstrapped && DecodedAll(a.tasks) == DecodedAll(b.tasks)
  }

  // Some daemon holding the key wrote this content.
  ghost predicate Signed(k: Key, c: Content, version: int) {
    exists b: bool, tasks: RecordMap ::
      SameFile(c, if version == 3 then Saved(Some(k), b, tasks) else SavedV2(k, tasks, b))
  }

  ghost predicate Genuine(k: Key, c: Content) {
    (c.mac == NoMac && c.version <= 1) || Signed(k, c, 2) || Signed(k, c, 3)
  }

  lemma JudgeIsGenuine(k: Key, c: Content)
    ensures Judge(k, c).Accept? <==> Genuine(k, c)
    ensures Signed(k, c, 3) <==> Judge(k, c) == Accept(c.bootstrapped, false)
    ensures Judge(k, c).Accept? && Judge(k, c).rewrite ==> c.version != 3
    ensures Judge(k, c).Accept? && !Judge(k, c).rewrite ==> c.version == 3
  {
    var tasks := DecodedAll(c.tasks);
    DecodeEncode(tasks);
    if c.version == 2 && Judge(k, c).Accept? { assert SameFile(c, SavedV2(k, tasks, c.bootstrapped)); }
    if c.version == 3 && Judge(k, c).Accept? { assert SameFile(c, Saved(Some(k), c.bootstrapped, tasks)); }
    forall t: RecordMap ensures DecodedAll(EncodedAll(t)) == t { DecodeEncode(t); }
  }

  // Loading keeps all records of exactly the genuine contents and none of any
  // other; the flag is true only when a version 3 signature covers it.
  lemma LoadedRecords(k: Key, c: Content, writable: bool)
    requires LoadSpec(Doc(c), Some(k), writable).Ok?
    ensures
      var m := LoadSpec(Doc(c), Some(k), writable).memory;
      && (Genuine(k, c) <==> !m.tampered)
      && m.tasks == (if Genuine(k, c) then DecodedAll(c.tasks) else map[])
      && (m.bootstrapped <==> Signed(k, c, 3) && c.bootstrapped)
  {
    JudgeIsGenuine(k, c);
  }

  // A daemon without a key takes any file that parses as it is, signed or not, its
  // signature unread: all records, an absent commit as an empty one, and no flag.
  lemma UnsignedLoadKeepsAll(c: Content, writable: bool)
    ensures
      var loaded := LoadSpec(Doc(c), None, writable);
      && loaded.Ok? && loaded.file == Doc(c)
      && !loaded.memory.bootstrapped && !loaded.memory.tampered
      && loaded.memory.tasks.Keys == c.tasks.Keys
      && forall id :: id in c.tasks ==>
           var r, f := loaded.memory.tasks[id], c.tasks[id];
           && r.hash == f.hash && r.at == f.at && r.via == f.via
           && (f.commit == None ==> r.commit == "") && (f.commit.Some? ==> r.commit == f.commit.value)
  {
  }

  // Loading fails only on a file that cannot be read, or on an older genuine
  // one that cannot be rewritten in the current format.
  lemma LoadFails(f: File, key: Option<Key>, writable: bool)
    ensures LoadSpec(f, key, writable).Failed? <==>
      || f.Unreadable? || f.Unparsable?
      || (f.Doc? && key.Some? && !writable && Genuine(key.value, f.content) && f.content.version != 3)
  {
    if f.Doc? && key.Some? { JudgeIsGenuine(key.value, f.content); }
  }

  // Loading is a fixpoint after one round: what it leaves on disk loads to the
  // same memory and is not rewritten again, whether it could be written or not.
  lemma UpgradeFixpoint(f: File, key: Option<Key>, w1: bool, w2: bool)
    requires LoadSpec(f, key, w1).Ok?
    ensures
      var first := LoadSpec(f, key, w1);
      LoadSpec(first.file, key, w2) == first
  {
    if f.Doc? && key.Some? {
      DecodeEncode(DecodedAll(f.content.tasks));
    }
  }

  // A signature belongs to one key and one set of records, and in version 3 to
  // one flag.
  lemma SignatureBinds(k1: Key, k2: Key, a: Content, b: Content)
    requires a.mac.MacText? && b.mac.MacText? && a.mac.digest == b.mac.digest
    requires Genuine(k1, a) && Genuine(k2, b)
    ensures k1 == k2 && a.version == b.version && DecodedAll(a.tasks) == DecodedAll(b.tasks)
    ensures a.version == 3 ==> a.bootstrapped == b.bootstrapped
  {
    JudgeIsGenuine(k1, a);
    JudgeIsGenuine(k2, b);
    DecodeEncode(DecodedAll(a.tasks));
    DecodeEncode(DecodedAll(b.tasks));
  }
}
