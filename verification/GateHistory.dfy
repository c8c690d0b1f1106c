// What a run of the gate leaves behind: the state is the fold of the event
// history, and every event is justified by the events before it. Both hold of
// every run (GateInvariant.Preserved); the theorems of GateSafety are about
// lawful histories alone.
module GateHistory {
  import opened Records
  import opened GateModel

  function Hashes(tasks: RecordMap): map<string, string> {
    map id | id in tasks :: tasks[id].hash
  }

  function SeeDisk(disk: map<Task, string>, e: Event): map<Task, string> {
    match e
    case Edited(k, content) => if content.Some? then disk[k := content.value] else disk - {k}
    case _ => disk
  }

  function SeeHashes(hashes: map<string, string>, e: Event): map<string, string> {
    match e
    case AutoGranted(id, h, _, _) => hashes[id := h]
    case Granted(id, h, _, _) => hashes[id := h]
    case Revoked(id) => hashes - {id}
    case _ => hashes
  }

  function SeePending(pending: map<string, Entry>, e: Event): map<string, Entry> {
    match e
    case Published(ent, _, _, _) => pending[ent.task.id := ent]
    case Withdrawn(id, _) => pending - {id}
    case Accepted(id, _) => pending - {id}
    case _ => pending
  }

  function SeeAdmitted(admitted: map<string, Task>, e: Event): map<string, Task> {
    match e
    case Retained(k) => admitted[k.id := k]
    case Dropped(id) => admitted - {id}
    case _ => admitted
  }

  // One fold per table.
  function DiskOf(c: Config, hist: seq<Event>): map<Task, string> {
    if hist == [] then c.disk else SeeDisk(DiskOf(c, hist[..|hist| - 1]), hist[|hist| - 1])
  }

  function HashesOf(c: Config, hist: seq<Event>): map<string, string> {
    if hist == [] then Hashes(c.records) else SeeHashes(HashesOf(c, hist[..|hist| - 1]), hist[|hist| - 1])
  }

  function PendingOf(hist: seq<Event>): map<string, Entry> {
    if hist == [] then map[] else SeePending(PendingOf(hist[..|hist| - 1]), hist[|hist| - 1])
  }

  function AdmittedOf(hist: seq<Event>): map<string, Task> {
    if hist == [] then map[] else SeeAdmitted(AdmittedOf(hist[..|hist| - 1]), hist[|hist| - 1])
  }

  predicate OpenOf(c: Config, hist: seq<Event>) {
    c.window && WindowClosed !in hist
  }

  // The state of the gate is what the history says.
  predicate Agrees(c: Config, s: State, hist: seq<Event>) {
    && s.disk == DiskOf(c, hist)
    && Hashes(s.tasks) == HashesOf(c, hist)
    && s.pending == PendingOf(hist)
    && s.admitted == AdmittedOf(hist)
    && s.bootstrap == OpenOf(c, hist)
  }

  // What e does to the tables.
  predicate Follows(s: State, e: Event, s': State) {
    && s'.disk == SeeDisk(s.disk, e)
    && Hashes(s'.tasks) == SeeHashes(Hashes(s.tasks), e)
    && s'.pending == SeePending(s.pending, e)
    && s'.admitted == SeeAdmitted(s.admitted, e)
    && s'.bootstrap == (s.bootstrap && !e.WindowClosed?)
  }

  // The events only the reconciler produces while it admits.
  predicate AdmitEvent(e: Event) {
    e.Observed? || e.Published? || e.Notified?
  }

  predicate QuietSince(hist: seq<Event>, i: int) {
    forall j :: i < j < |hist| && 0 <= j ==> !AdmitEvent(hist[j])
  }

  // Every generation published as a new version has had its hook called.
  predicate AllNotified(hist: seq<Event>) {
    forall g {:trigger NotifiedSince(hist, g)} ::
      0 <= g < |hist| && hist[g].Published? && hist[g].notify ==> NotifiedSince(hist, g)
  }

  predicate NotifiedSince(hist: seq<Event>, g: nat)
    requires g < |hist| && hist[g].Published?
  {
    exists n :: g < n < |hist| && hist[n] == Notified(hist[g].ent)
  }

  predicate IsNewVersion(pending: map<string, Entry>, ent: Entry) {
    !(ent.task.id in pending && pending[ent.task.id].SameVersion(ent.hash, ent.enabled))
  }

  predicate IsGeneration(hist: seq<Event>, ent: Entry) {
    && ent.gen < |hist| && hist[ent.gen].Published? && hist[ent.gen].ent == ent
  }

  // The arm of Admit that granted id, given whether the window was open when it decided.
  predicate ArmAllows(c: Config, open: bool, id: string, via: By) {
    || PolicyArm(c, id) == Some(via)
    || (PolicyArm(c, id) == None && via == Bootstrap && open)
  }

  // e may follow the history `past`.
  predicate EventOk(c: Config, past: seq<Event>, e: Event) {
    match e
    case Observed(k, h) =>
      h == HashNow(DiskOf(c, past), k) && AllNotified(past)
    case Decided(id, h, via, obs) =>
      && obs < |past| && past[obs].Observed? && past[obs].task.id == id && past[obs].hash == h
      && ArmAllows(c, OpenOf(c, past), id, via)
    case Matched(id, h, obs) =>
      && obs < |past| && past[obs].Observed? && past[obs].task.id == id && past[obs].hash == h
      && h != "" && id in HashesOf(c, past) && HashesOf(c, past)[id] == h
    case Published(ent, obs, at, notify) =>
      && ent.gen == |past| && PolicyArm(c, ent.task.id) == None
      && obs < at <= |past| && past[obs] == Observed(ent.task, ent.hash)
      && QuietSince(past, obs)
      && ent.enabled == ResolvedEnabled(c, ent.task)
      && notify == IsNewVersion(PendingOf(past[..at]), ent)
    case Notified(ent) =>
      && IsGeneration(past, ent) && past[ent.gen].notify && QuietSince(past, ent.gen)
    case AutoGranted(id, h, via, dec) =>
      && dec < |past| && past[dec].Decided? && past[dec].id == id && past[dec].hash == h && past[dec].via == via
      && h != ""
    case Withdrawn(id, cause) =>
      && cause < |past|
      && match past[cause] {
         case Matched(id', _, _) => id' == id
         case Decided(id', _, _, _) => id' == id
         case Forgets(id') => id' == id
         case _ => false
      }
    case Read(id, want, gen) =>
      && id in PendingOf(past) && PendingOf(past)[id].gen == gen
      && gen < |past| && past[gen].Published? && past[gen].ent == PendingOf(past)[id]
      && past[gen].ent.task.id == id
      && past[gen].ent.hash != "" && (want != "" ==> want == past[gen].ent.hash)
    case Granted(id, h, via, read) =>
      && IsRead(past, read, id, h) && via == (if past[read].want == "" then Manual else TokenLink)
    case Accepted(id, read) =>
      && id in PendingOf(past)
      && IsRead(past, read, id, PendingOf(past)[id].hash)
      && GrantedSince(past, read)
    case Revoked(id) => id !in PendingOf(past)
    case Began(id) => id !in PendingOf(past)
    case Waved(id) => Trusted(c, id)
    case Hashed(k, h, began, handled) =>
      && began < handled <= |past| && past[began] == Began(k.id) && !Trusted(c, k.id)
      && k.id in AdmittedOf(past[..handled]) && AdmittedOf(past[..handled])[k.id] == k
      && k in DiskOf(c, past) && DiskOf(c, past)[k] == h
    case Fired(k, h, hashed) =>
      && hashed < |past| && past[hashed].Hashed? && past[hashed].task == k && past[hashed].hash == h
      && h != "" && k.id in HashesOf(c, past) && HashesOf(c, past)[k.id] == h
    case _ => true
  }

  // An approve call read, at position read, a pending entry of id with hash h.
  predicate IsRead(hist: seq<Event>, read: nat, id: string, h: string) {
    && read < |hist| && hist[read].Read? && hist[read].id == id
    && hist[read].gen < read && hist[hist[read].gen].Published?
    && hist[hist[read].gen].ent.hash == h
  }

  predicate GrantedSince(hist: seq<Event>, read: nat) {
    exists g :: read < g < |hist| && hist[g].Granted? && hist[g].read == read
  }

  predicate OkAt(c: Config, hist: seq<Event>, i: nat)
    requires i < |hist|
  {
    EventOk(c, hist[..i], hist[i])
  }

  predicate Lawful(c: Config, hist: seq<Event>) {
    forall i: nat {:trigger OkAt(c, hist, i)} :: i < |hist| ==> OkAt(c, hist, i)
  }

  lemma AgreesAppend(c: Config, s: State, hist: seq<Event>, e: Event, s': State)
    requires Agrees(c, s, hist) && Follows(s, e, s')
    ensures Agrees(c, s', hist + [e])
  {
    assert (hist + [e])[..|hist|] == hist;
  }

  lemma LawfulAppend(c: Config, hist: seq<Event>, e: Event)
    requires Lawful(c, hist) && EventOk(c, hist, e)
    ensures Lawful(c, hist + [e])
  {
    var h' := hist + [e];
    forall i: nat | i < |h'| ensures OkAt(c, h', i) {
      if i < |hist| { assert OkAt(c, hist, i); }
      if i < |hist| { assert h'[..i] == hist[..i]; } else { assert h'[..i] == hist; }
    }
  }

  // Recording r is what a grant of its hash looks like.
  lemma RecordedHashes(tasks: RecordMap, r: Record, e: Event)
    requires (e.AutoGranted? || e.Granted?) && e.hash == r.hash
    ensures Hashes(Recorded(tasks, e.id, r)) == SeeHashes(Hashes(tasks), e)
  {
    assert Hashes(Recorded(tasks, e.id, r)) == Hashes(tasks)[e.id := r.hash];
  }

  lemma RemovedHashes(tasks: RecordMap, id: string)
    ensures Hashes(Removed(tasks, id)) == SeeHashes(Hashes(tasks), Revoked(id))
  {
  }
}
