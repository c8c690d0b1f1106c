// Every step of the gate, whatever it interleaves with, appends a justified
// event and keeps the state equal to the fold of the history.
module GateInvariant {
  import opened Records
  import opened GateModel
  import opened GateHistory

  // What the reconciler remembers between two critical sections is still backed
  // by the history, however much the other goroutines did meanwhile.
  ghost predicate ReconOk(c: Config, hist: seq<Event>, pc: ReconPc) {
    && (!pc.Held? ==> AllNotified(hist))
    && match pc {
      case Idle => true
      case Hashing(k, h, obs) => Observing(hist, k, h, obs)
      case Deciding(k, h, obs) => Observing(hist, k, h, obs)
      case Window(k, h, obs) => Observing(hist, k, h, obs) && PolicyArm(c, k.id) == None
      case Pend(k, h, obs) => Observing(hist, k, h, obs) && PolicyArm(c, k.id) == None
      case Compared(k, h, obs, at, notify) => Comparing(c, hist, k, h, obs, at, notify)
      case Based(k, h, obs, at, notify, _, _, _) => Comparing(c, hist, k, h, obs, at, notify)
      case Held(ent, notify) =>
        && IsGeneration(hist, ent) && hist[ent.gen].notify == notify && QuietSince(hist, ent.gen)
        && AllNotified(hist[..ent.gen])
      case Approving(k, cause) => IsMatch(hist, cause, k.id)
      case Auto(k, h, via, dec) => IsDecision(hist, dec, k.id, h, via)
      case AutoChecked(k, h, via, dec, _) => IsDecision(hist, dec, k.id, h, via)
      case AutoCleared(k, h, via, dec, _) => IsDecision(hist, dec, k.id, h, via)
      case Forgetting(id, cause) => cause < |hist| && hist[cause] == Forgets(id)
      case Forgotten(id) => id !in PendingOf(hist)
      case Unrecording(id) => id !in PendingOf(hist)
      case _ => true
    }
  }

  predicate Observing(hist: seq<Event>, k: Task, h: string, obs: nat) {
    obs < |hist| && hist[obs] == Observed(k, h) && QuietSince(hist, obs)
  }

  predicate Comparing(c: Config, hist: seq<Event>, k: Task, h: string, obs: nat, at: nat, notify: bool) {
    && Observing(hist, k, h, obs) && PolicyArm(c, k.id) == None && obs < at <= |hist|
    && var p := PendingOf(hist[..at]);
       notify == !(k.id in p && p[k.id].SameVersion(h, ResolvedEnabled(c, k)))
  }

  predicate IsMatch(hist: seq<Event>, i: nat, id: string) {
    i < |hist| && hist[i].Matched? && hist[i].id == id
  }

  predicate IsDecision(hist: seq<Event>, i: nat, id: string, h: string, via: By) {
    i < |hist| && hist[i].Decided? && hist[i].id == id && hist[i].hash == h && hist[i].via == via
  }

  predicate ApproverOk(hist: seq<Event>, pc: ApprovePc) {
    match pc
    case Recording(id, ent, want, read) => IsRead(hist, read, id, ent.hash) && hist[read].want == want
    case ArmingApproved(id, ent, read) => IsRead(hist, read, id, ent.hash) && GrantedSince(hist, read)
    case Clearing(id, ent, read) => IsRead(hist, read, id, ent.hash) && GrantedSince(hist, read)
  }

  predicate FireOk(c: Config, hist: seq<Event>, pc: FirePc) {
    match pc
    case Trusting(id, began) => began < |hist| && hist[began] == Began(id)
    case Handling(id, began) => began < |hist| && hist[began] == Began(id) && !Trusted(c, id)
    case HashingLive(k, began, handled) =>
      && began < handled <= |hist| && hist[began] == Began(k.id) && !Trusted(c, k.id)
      && k.id in AdmittedOf(hist[..handled]) && AdmittedOf(hist[..handled])[k.id] == k
    case Checking(k, live, hashed) =>
      hashed < |hist| && hist[hashed].Hashed? && hist[hashed].task == k && hist[hashed].hash == live
  }

  predicate TablesOk(hist: seq<Event>, pending: map<string, Entry>, admitted: map<string, Task>) {
    && (forall id :: id in pending ==> IsGeneration(hist, pending[id]) && pending[id].task.id == id)
    && (forall id :: id in admitted ==> admitted[id].id == id)
  }

  ghost predicate Inv(c: Config, s: State) {
    && Agrees(c, s, s.hist)
    && Lawful(c, s.hist)
    && TablesOk(s.hist, s.pending, s.admitted)
    && ReconOk(c, s.hist, s.recon)
    && (forall t :: t in s.approvers ==> ApproverOk(s.hist, s.approvers[t]))
    && (forall t :: t in s.fires ==> FireOk(c, s.hist, s.fires[t]))
  }

  lemma StartOk(c: Config)
    ensures Inv(c, Start(c))
  {
  }

  // ---- Appending an event leaves what is already remembered in place ---------

  lemma ApproverStays(hist: seq<Event>, e: Event, pc: ApprovePc)
    requires ApproverOk(hist, pc)
    ensures ApproverOk(hist + [e], pc)
  {
    if !pc.Recording? {
      var g :| pc.read < g < |hist| && hist[g].Granted? && hist[g].read == pc.read;
      assert (hist + [e])[g] == hist[g];
    }
  }

  lemma FireStays(c: Config, hist: seq<Event>, e: Event, pc: FirePc)
    requires FireOk(c, hist, pc)
    ensures FireOk(c, hist + [e], pc)
  {
    if pc.HashingLive? { assert (hist + [e])[..pc.handled] == hist[..pc.handled]; }
  }

  lemma NotifiedStays(hist: seq<Event>, e: Event)
    requires AllNotified(hist) && !(e.Published? && e.notify)
    ensures AllNotified(hist + [e])
  {
    var h' := hist + [e];
    forall g | 0 <= g < |h'| && h'[g].Published? && h'[g].notify ensures NotifiedSince(h', g) {
      assert NotifiedSince(hist, g);
      var n :| g < n < |hist| && hist[n] == Notified(hist[g].ent);
      assert h'[n] == hist[n];
    }
  }

  lemma ReconStays(c: Config, hist: seq<Event>, e: Event, pc: ReconPc)
    requires ReconOk(c, hist, pc) && !AdmitEvent(e)
    ensures ReconOk(c, hist + [e], pc)
  {
    if pc.Held? { assert (hist + [e])[..pc.ent.gen] == hist[..pc.ent.gen]; }
    else { NotifiedStays(hist, e); }
    if pc.Compared? || pc.Based? { assert (hist + [e])[..pc.at] == hist[..pc.at]; }
  }

  // s' is s after event e, apart from what the goroutine that moved remembers.
  lemma Extended(c: Config, s: State, e: Event, s': State)
    requires Inv(c, s) && s'.hist == s.hist + [e] && EventOk(c, s.hist, e)
    requires Follows(s, e, s')
    ensures Agrees(c, s', s'.hist) && Lawful(c, s'.hist)
    ensures !AdmitEvent(e) ==> ReconOk(c, s'.hist, s.recon)
    ensures forall t :: t in s.approvers ==> ApproverOk(s'.hist, s.approvers[t])
    ensures forall t :: t in s.fires ==> FireOk(c, s'.hist, s.fires[t])
    ensures TablesOk(s'.hist, s.pending, s.admitted)
  {
    AgreesAppend(c, s, s.hist, e, s');
    LawfulAppend(c, s.hist, e);
    if !AdmitEvent(e) { ReconStays(c, s.hist, e, s.recon); }
    forall t | t in s.approvers ensures ApproverOk(s'.hist, s.approvers[t]) {
      ApproverStays(s.hist, e, s.approvers[t]);
    }
    forall t | t in s.fires ensures FireOk(c, s'.hist, s.fires[t]) { FireStays(c, s.hist, e, s.fires[t]); }
  }

  // ---- One lemma per goroutine ----------------------------------------------

  lemma EnvironmentKeeps(c: Config, s: State, l: Label)
    requires Inv(c, s) && (l.Edit? || l.EndWindow?)
    ensures Inv(c, Next(c, s, l))
  {
    Extended(c, s, if l.Edit? then Edited(l.task, l.content) else WindowClosed, Next(c, s, l));
  }

  predicate FireStep(e: Event) {
    e.Began? || e.Waved? || e.Hashed? || e.Fired? || e.Vetoed?
  }

  // One firing goroutine produced e; only its own program counter changed.
  lemma FireMoved(c: Config, s: State, e: Event, fires: map<nat, FirePc>, t: nat)
    requires Inv(c, s) && FireStep(e) && EventOk(c, s.hist, e)
    requires fires - {t} == s.fires - {t}
    requires t in fires ==> FireOk(c, s.hist + [e], fires[t])
    ensures Inv(c, s.(hist := s.hist + [e], fires := fires))
  {
    Extended(c, s, e, s.(hist := s.hist + [e], fires := fires));
    forall u | u in fires ensures FireOk(c, s.hist + [e], fires[u]) {
      if u != t { assert u in s.fires - {t} && (s.fires - {t})[u] == (fires - {t})[u]; }
    }
  }

  lemma FireBegins(c: Config, s: State, t: nat, id: string)
    requires Inv(c, s)
    ensures Inv(c, BeginFire(s, t, id))
  {
    if t !in s.fires {
      if id in s.pending { FireMoved(c, s, Vetoed(id), s.fires, t); }
      else { FireMoved(c, s, Began(id), s.fires[t := Trusting(id, |s.hist|)], t); }
    }
  }

  lemma FireTrusts(c: Config, s: State, t: nat, id: string, began: nat)
    requires Inv(c, s) && t in s.fires && s.fires[t] == Trusting(id, began)
    ensures Inv(c, Trust(c, s, t, id, began))
  {
    if Trusted(c, id) { FireMoved(c, s, Waved(id), s.fires - {t}, t); }
  }

  lemma FireHandles(c: Config, s: State, t: nat, id: string, began: nat)
    requires Inv(c, s) && t in s.fires && s.fires[t] == Handling(id, began)
    ensures Inv(c, Handle(s, t, id, began))
  {
    if id in s.admitted { assert s.hist[..|s.hist|] == s.hist; }
    else { FireMoved(c, s, Vetoed(id), s.fires - {t}, t); }
  }

  lemma FireHashes(c: Config, s: State, t: nat, k: Task, began: nat, handled: nat)
    requires Inv(c, s) && t in s.fires && s.fires[t] == HashingLive(k, began, handled)
    ensures Inv(c, HashLive(s, t, k, began, handled))
  {
    if k in s.disk {
      FireMoved(c, s, Hashed(k, s.disk[k], began, handled), s.fires[t := Checking(k, s.disk[k], |s.hist|)], t);
    } else { FireMoved(c, s, Vetoed(k.id), s.fires - {t}, t); }
  }

  lemma FireChecks(c: Config, s: State, t: nat, k: Task, live: string, hashed: nat)
    requires Inv(c, s) && t in s.fires && s.fires[t] == Checking(k, live, hashed)
    ensures Inv(c, Check(s, t, k, live, hashed))
  {
    var e := if Approved(s.tasks, k.id, live) then Fired(k, live, hashed) else Vetoed(k.id);
    assert Hashes(s.tasks) == HashesOf(c, s.hist);
    FireMoved(c, s, e, s.fires - {t}, t);
  }

  // ---- Approvers ------------------------------------------------------------

  // One approving goroutine produced e; of the tables it changed only records
  // and pending entries, the latter by removal.
  lemma ApproverMoved(c: Config, s: State, e: Event, s': State, t: nat)
    requires Inv(c, s) && (e.Read? || e.Granted? || e.Accepted?) && EventOk(c, s.hist, e)
    requires s' == s.(hist := s.hist + [e], tasks := s'.tasks, pending := s'.pending, approvers := s'.approvers)
    requires Follows(s, e, s')
    requires forall u :: u in s'.approvers && u != t ==> u in s.approvers && s'.approvers[u] == s.approvers[u]
    requires t in s'.approvers ==> ApproverOk(s'.hist, s'.approvers[t])
    ensures Inv(c, s')
  {
    Extended(c, s, e, s');
  }

  lemma ApproveBegins(c: Config, s: State, t: nat, id: string, want: string)
    requires Inv(c, s)
    ensures Inv(c, BeginApprove(s, t, id, want))
  {
    var s' := BeginApprove(s, t, id, want);
    if s' != s { ApproverMoved(c, s, Read(id, want, s.pending[id].gen), s', t); }
  }

  lemma ApproveGrants(c: Config, s: State, t: nat, env: Env, id: string, ent: Entry, want: string, read: nat)
    requires Inv(c, s) && t in s.approvers && s.approvers[t] == Recording(id, ent, want, read)
    ensures Inv(c, Grant(s, t, env, id, ent, want, read))
  {
    var via := if want == "" then Manual else TokenLink;
    var e := Granted(id, ent.hash, via, read);
    ApproverStays(s.hist, e, s.approvers[t]);
    assert (s.hist + [e])[|s.hist|] == e;
    assert ApproverOk(s.hist + [e], ArmingApproved(id, ent, read));
    RecordedHashes(s.tasks, Record(ent.hash, env.at, via, ent.commit), e);
    ApproverMoved(c, s, e, Grant(s, t, env, id, ent, want, read), t);
  }

  lemma ApproveArms(c: Config, s: State, t: nat, env: Env, id: string, ent: Entry, read: nat)
    requires Inv(c, s) && t in s.approvers && s.approvers[t] == ArmingApproved(id, ent, read)
    ensures Inv(c, ArmApproved(s, t, env, id, ent, read))
  {
  }

  lemma ApproveClears(c: Config, s: State, t: nat, id: string, ent: Entry, read: nat)
    requires Inv(c, s) && t in s.approvers && s.approvers[t] == Clearing(id, ent, read)
    ensures Inv(c, Clear(s, t, id, ent, read))
  {
    if id in s.pending && s.pending[id].hash == ent.hash { ApproverAccepts(c, s, t, id, ent, read); }
  }

  lemma ApproverAccepts(c: Config, s: State, t: nat, id: string, ent: Entry, read: nat)
    requires Inv(c, s) && t in s.approvers && s.approvers[t] == Clearing(id, ent, read)
    requires id in s.pending && s.pending[id].hash == ent.hash
    ensures Inv(c, Clear(s, t, id, ent, read))
  {
    var e := Accepted(id, read);
    assert EventOk(c, s.hist, e);
    ApproverMoved(c, s, e, Clear(s, t, id, ent, read), t);
  }

  // ---- Reconciler -----------------------------------------------------------

  lemma ReconMoved(c: Config, s: State, e: Event, s': State)
    requires Inv(c, s) && EventOk(c, s.hist, e) && s'.hist == s.hist + [e]
    requires s'.approvers == s.approvers && s'.fires == s.fires
    requires Follows(s, e, s')
    requires TablesOk(s'.hist, s'.pending, s'.admitted) && ReconOk(c, s'.hist, s'.recon)
    ensures Inv(c, s')
  {
    Extended(c, s, e, s');
  }

  // The same for events that are not part of the admit protocol proper.
  lemma ReconQuietlyMoved(c: Config, s: State, e: Event, s': State)
    requires Inv(c, s) && !s.recon.Held? && !AdmitEvent(e) && EventOk(c, s.hist, e) && s'.hist == s.hist + [e]
    requires s'.approvers == s.approvers && s'.fires == s.fires
    requires Follows(s, e, s')
    requires forall id :: id in s'.pending ==> id in s.pending && s'.pending[id] == s.pending[id]
    requires forall id :: id in s'.admitted ==> s'.admitted[id].id == id
    requires !s'.recon.Held?
    requires ReconOk(c, s'.hist, s.recon) ==> ReconOk(c, s'.hist, s'.recon)
    ensures Inv(c, s')
  {
    ReconStays(c, s.hist, e, s.recon);
    Extended(c, s, e, s');
  }

  lemma AdmitStarts(c: Config, s: State, k: Task)
    requires Inv(c, s)
    ensures Inv(c, Next(c, s, StartAdmit(k)))
  {
    if s.recon == Idle {
      var e := Observed(k, HashNow(s.disk, k));
      NotifiedStays(s.hist, e);
      ReconMoved(c, s, e, Next(c, s, StartAdmit(k)));
    }
  }

  lemma ForgetStarts(c: Config, s: State, id: string)
    requires Inv(c, s)
    ensures Inv(c, Next(c, s, StartForget(id)))
  {
    if s.recon == Idle { ReconQuietlyMoved(c, s, Forgets(id), Next(c, s, StartForget(id))); }
  }

  lemma AdmitRetains(c: Config, s: State, k: Task, h: string, obs: nat)
    requires Inv(c, s) && s.recon == Hashing(k, h, obs)
    ensures Inv(c, Retain(s, k, h, obs))
  {
    ReconQuietlyMoved(c, s, Retained(k), Retain(s, k, h, obs));
  }

  lemma AutoDecides(c: Config, s: State, k: Task, h: string, obs: nat, via: By)
    requires Inv(c, s) && !s.recon.Held? && Observing(s.hist, k, h, obs) && ArmAllows(c, s.bootstrap, k.id, via)
    ensures Inv(c, AutoDecide(s, k, h, obs, via))
  {
    ReconQuietlyMoved(c, s, Decided(k.id, h, via, obs), AutoDecide(s, k, h, obs, via));
  }

  lemma AdmitMatches(c: Config, s: State, k: Task, h: string, obs: nat)
    requires Inv(c, s) && s.recon == Deciding(k, h, obs) && Approved(s.tasks, k.id, h)
    ensures Inv(c, s.(hist := s.hist + [Matched(k.id, h, obs)], recon := Approving(k, |s.hist|)))
  {
    var e := Matched(k.id, h, obs);
    assert Hashes(s.tasks) == HashesOf(c, s.hist);
    ReconQuietlyMoved(c, s, e, s.(hist := s.hist + [e], recon := Approving(k, |s.hist|)));
  }

  lemma AdmitDecides(c: Config, s: State, k: Task, h: string, obs: nat)
    requires Inv(c, s) && s.recon == Deciding(k, h, obs)
    ensures Inv(c, Decide(c, s, k, h, obs))
  {
    if PolicyArm(c, k.id).Some? { AutoDecides(c, s, k, h, obs, PolicyArm(c, k.id).value); }
    else if Approved(s.tasks, k.id, h) { AdmitMatches(c, s, k, h, obs); }
  }

  lemma AdmitLooksAtWindow(c: Config, s: State, k: Task, h: string, obs: nat)
    requires Inv(c, s) && s.recon == Window(k, h, obs)
    ensures Inv(c, LookAtWindow(s, k, h, obs))
  {
    if s.bootstrap { AutoDecides(c, s, k, h, obs, Bootstrap); }
  }

  lemma AdmitCompares(c: Config, s: State, k: Task, h: string, obs: nat)
    requires Inv(c, s) && s.recon == Pend(k, h, obs)
    ensures Inv(c, Compare(c, s, k, h, obs))
  {
    assert s.hist[..|s.hist|] == s.hist;
  }

  lemma AdmitBases(c: Config, s: State, env: Env, k: Task, h: string, obs: nat, at: nat, notify: bool)
    requires Inv(c, s) && s.recon == Compared(k, h, obs, at, notify)
    ensures Inv(c, Base(s, env, k, h, obs, at, notify))
  {
  }

  lemma Publishes(c: Config, s: State, ent: Entry, obs: nat, at: nat, notify: bool, s': State)
    requires Inv(c, s) && Comparing(c, s.hist, ent.task, ent.hash, obs, at, notify) && AllNotified(s.hist)
    requires ent.gen == |s.hist| && ent.enabled == ResolvedEnabled(c, ent.task)
    requires s'.hist == s.hist + [Published(ent, obs, at, notify)]
    requires s'.disk == s.disk && s'.tasks == s.tasks && s'.pending == s.pending[ent.task.id := ent]
    requires s'.admitted == s.admitted && s'.bootstrap == s.bootstrap && s'.recon == Held(ent, notify)
    requires s'.approvers == s.approvers && s'.fires == s.fires
    ensures Inv(c, s')
  {
    var e := Published(ent, obs, at, notify);
    GenerationPublished(s.hist, e);
    assert TablesOk(s'.hist, s'.pending, s'.admitted);
    ReconMoved(c, s, e, s');
  }

  lemma AdmitPublishes(c: Config, s: State, ent: Entry, obs: nat, at: nat, notify: bool)
    requires Inv(c, s) && Comparing(c, s.hist, ent.task, ent.hash, obs, at, notify) && AllNotified(s.hist)
    requires ent.gen == |s.hist| && ent.enabled == ResolvedEnabled(c, ent.task)
    ensures Inv(c, Publish(s, ent, obs, at, notify))
  {
    Publishes(c, s, ent, obs, at, notify, Publish(s, ent, obs, at, notify));
  }

  lemma GenerationPublished(hist: seq<Event>, e: Event)
    requires e.Published? && e.ent.gen == |hist| && AllNotified(hist)
    ensures IsGeneration(hist + [e], e.ent) && (hist + [e])[e.ent.gen].notify == e.notify
    ensures QuietSince(hist + [e], e.ent.gen) && AllNotified((hist + [e])[..e.ent.gen])
  {
    assert (hist + [e])[..|hist|] == hist && (hist + [e])[|hist|] == e;
  }

  // Once the hook has run, nothing published is left to notify.
  lemma NotifiedAgain(hist: seq<Event>, ent: Entry, hist': seq<Event>)
    requires IsGeneration(hist, ent) && QuietSince(hist, ent.gen) && AllNotified(hist[..ent.gen])
    requires hist' == if hist[ent.gen].notify then hist + [Notified(ent)] else hist
    ensures AllNotified(hist')
  {
    forall g | 0 <= g < |hist'| && hist'[g].Published? && hist'[g].notify ensures NotifiedSince(hist', g) {
      if g < ent.gen {
        assert hist[..ent.gen][g] == hist[g] && NotifiedSince(hist[..ent.gen], g);
        var n :| g < n < ent.gen && hist[..ent.gen][n] == Notified(hist[g].ent);
        assert hist'[n] == Notified(hist'[g].ent);
      } else {
        assert g == ent.gen && hist'[|hist|] == Notified(ent);
      }
    }
  }

  lemma AdmitFinishes(c: Config, s: State, ent: Entry, notify: bool)
    requires Inv(c, s) && s.recon == Held(ent, notify)
    ensures Inv(c, Finish(s, ent, notify))
  {
    NotifiedAgain(s.hist, ent, Finish(s, ent, notify).hist);
    if notify { ReconMoved(c, s, Notified(ent), Finish(s, ent, notify)); }
  }

  // The reconciler moves on without touching anything else.
  lemma ReconResumes(c: Config, s: State, pc: ReconPc)
    requires Inv(c, s) && ReconOk(c, s.hist, pc)
    ensures Inv(c, s.(recon := pc))
  {
  }

  lemma Withdraws(c: Config, s: State, id: string, cause: nat, pc: ReconPc)
    requires Inv(c, s) && EventOk(c, s.hist, Withdrawn(id, cause))
    requires !s.recon.Held? && !pc.Held?
    requires if id in s.pending then ReconOk(c, s.hist + [Withdrawn(id, cause)], pc) else ReconOk(c, s.hist, pc)
    ensures Inv(c, Withdraw(s, id, cause, pc))
  {
    if id in s.pending {
      ReconQuietlyMoved(c, s, Withdrawn(id, cause), Withdraw(s, id, cause, pc));
    } else {
      ReconResumes(c, s, pc);
    }
  }

  lemma ApprovedWithdraws(c: Config, s: State, k: Task, cause: nat)
    requires Inv(c, s) && s.recon == Approving(k, cause)
    ensures Inv(c, Withdraw(s, k.id, cause, Arming(k)))
  {
    ReconStays(c, s.hist, Withdrawn(k.id, cause), s.recon);
    Withdraws(c, s, k.id, cause, Arming(k));
  }

  lemma AutoWithdraws(c: Config, s: State, k: Task, h: string, via: By, dec: nat, known: bool)
    requires Inv(c, s) && s.recon == AutoChecked(k, h, via, dec, known)
    ensures Inv(c, Withdraw(s, k.id, dec, AutoCleared(k, h, via, dec, known)))
  {
    ReconStays(c, s.hist, Withdrawn(k.id, dec), s.recon);
    Withdraws(c, s, k.id, dec, AutoCleared(k, h, via, dec, known));
  }

  lemma ForgetWithdraws(c: Config, s: State, id: string, cause: nat)
    requires Inv(c, s) && s.recon == Forgetting(id, cause)
    ensures Inv(c, Withdraw(s, id, cause, Forgotten(id)))
  {
    var hist' := s.hist + [Withdrawn(id, cause)];
    ReconStays(c, s.hist, Withdrawn(id, cause), s.recon);
    assert hist'[..|s.hist|] == s.hist && PendingOf(hist') == s.pending - {id};
    Withdraws(c, s, id, cause, Forgotten(id));
  }

  lemma AutoGrants(c: Config, s: State, k: Task, r: Record, dec: nat, s': State)
    requires Inv(c, s) && s.recon.AutoCleared? && IsDecision(s.hist, dec, k.id, r.hash, r.via) && r.hash != ""
    requires s'.hist == s.hist + [AutoGranted(k.id, r.hash, r.via, dec)]
    requires s'.disk == s.disk && s'.tasks == Recorded(s.tasks, k.id, r) && s'.pending == s.pending
    requires s'.admitted == s.admitted && s'.bootstrap == s.bootstrap && s'.recon == Arming(k)
    requires s'.approvers == s.approvers && s'.fires == s.fires
    ensures Inv(c, s')
  {
    var e := AutoGranted(k.id, r.hash, r.via, dec);
    RecordedHashes(s.tasks, r, e);
    assert Follows(s, e, s');
    assert EventOk(c, s.hist, e);
    ReconQuietlyMoved(c, s, e, s');
  }

  lemma AutoRecords(c: Config, s: State, env: Env, k: Task, h: string, via: By, dec: nat, known: bool)
    requires Inv(c, s) && s.recon == AutoCleared(k, h, via, dec, known)
    ensures Inv(c, AutoRecord(s, env, k, h, via, dec, known))
  {
    var r := Record(h, env.at, via, if known then "" else env.commit);
    if h == "" {
      ReconResumes(c, s, Arming(k));
    } else {
      AutoGrants(c, s, k, r, dec, AutoRecord(s, env, k, h, via, dec, known));
    }
  }

  lemma ForgetDrops(c: Config, s: State, id: string)
    requires Inv(c, s) && s.recon == Forgotten(id)
    ensures Inv(c, DropHandle(s, id))
  {
    ReconQuietlyMoved(c, s, Dropped(id), DropHandle(s, id));
  }

  lemma ForgetUnrecords(c: Config, s: State, id: string)
    requires Inv(c, s) && s.recon == Unrecording(id)
    ensures Inv(c, Unrecord(s, id))
  {
    RemovedHashes(s.tasks, id);
    ReconQuietlyMoved(c, s, Revoked(id), Unrecord(s, id));
  }

  lemma AutoChecks(c: Config, s: State, k: Task, h: string, via: By, dec: nat, known: bool)
    requires Inv(c, s) && s.recon == Auto(k, h, via, dec)
    ensures Inv(c, s.(recon := AutoChecked(k, h, via, dec, known)))
  {
  }

  lemma ReconArms(c: Config, s: State, env: Env, k: Task)
    requires Inv(c, s) && s.recon == Arming(k)
    ensures Inv(c, Arm(s, env, k))
  {
  }

  lemma AdmitKeeps(c: Config, s: State, env: Env)
    requires Inv(c, s)
    requires s.recon.Hashing? || s.recon.Deciding? || s.recon.Window? || s.recon.Pend? || s.recon.Compared?
      || s.recon.Based? || s.recon.Held?
    ensures Inv(c, NextAdmit(c, s, env))
  {
    match s.recon
    case Hashing(k, h, obs) => AdmitRetains(c, s, k, h, obs);
    case Deciding(k, h, obs) => AdmitDecides(c, s, k, h, obs);
    case Window(k, h, obs) => AdmitLooksAtWindow(c, s, k, h, obs);
    case Pend(k, h, obs) => AdmitCompares(c, s, k, h, obs);
    case Compared(k, h, obs, at, notify) => AdmitBases(c, s, env, k, h, obs, at, notify);
    case Based(k, h, obs, at, notify, commit, remote, base) =>
      AdmitPublishes(c, s, Entry(k, h, commit, remote, base, ResolvedEnabled(c, k), |s.hist|), obs, at, notify);
    case Held(ent, notify) => AdmitFinishes(c, s, ent, notify);
  }

  lemma ReconKeeps(c: Config, s: State, env: Env)
    requires Inv(c, s)
    ensures Inv(c, NextAdmit(c, s, env))
  {
    match s.recon
    case Idle =>
    case AutoCleared(k, h, via, dec, known) => AutoRecords(c, s, env, k, h, via, dec, known);
    case Forgotten(id) => ForgetDrops(c, s, id);
    case Unrecording(id) => ForgetUnrecords(c, s, id);
    case Auto(k, h, via, dec) => AutoChecks(c, s, k, h, via, dec, Approved(s.tasks, k.id, h));
    case Arming(k) => ReconArms(c, s, env, k);
    case Approving(k, cause) => ApprovedWithdraws(c, s, k, cause);
    case AutoChecked(k, h, via, dec, known) => AutoWithdraws(c, s, k, h, via, dec, known);
    case Forgetting(id, cause) => ForgetWithdraws(c, s, id, cause);
    case _ => AdmitKeeps(c, s, env);
  }

  lemma ApproveKeeps(c: Config, s: State, t: nat, env: Env)
    requires Inv(c, s)
    ensures Inv(c, NextApprove(s, t, env))
  {
    if t in s.approvers {
      match s.approvers[t]
      case Recording(id, ent, want, read) => ApproveGrants(c, s, t, env, id, ent, want, read);
      case ArmingApproved(id, ent, read) => ApproveArms(c, s, t, env, id, ent, read);
      case Clearing(id, ent, read) => ApproveClears(c, s, t, id, ent, read);
    }
  }

  lemma FireKeeps(c: Config, s: State, t: nat)
    requires Inv(c, s)
    ensures Inv(c, NextFire(c, s, t))
  {
    if t in s.fires {
      match s.fires[t]
      case Trusting(id, began) => FireTrusts(c, s, t, id, began);
      case Handling(id, began) => FireHandles(c, s, t, id, began);
      case HashingLive(k, began, handled) => FireHashes(c, s, t, k, began, handled);
      case Checking(k, live, hashed) => FireChecks(c, s, t, k, live, hashed);
    }
  }

  // ---- Every run ------------------------------------------------------------

  lemma StepKeeps(c: Config, s: State, l: Label)
    requires Inv(c, s)
    ensures Inv(c, Next(c, s, l))
  {
    match l
    case Edit(_, _) => EnvironmentKeeps(c, s, l);
    case EndWindow => EnvironmentKeeps(c, s, l);
    case StartAdmit(k) => AdmitStarts(c, s, k);
    case StartForget(id) => ForgetStarts(c, s, id);
    case StartApprove(t, id, want) => ApproveBegins(c, s, t, id, want);
    case StartFire(t, id) => FireBegins(c, s, t, id);
    case Recon(env) => ReconKeeps(c, s, env);
    case Approve(t, env) => ApproveKeeps(c, s, t, env);
    case Fire(t) => FireKeeps(c, s, t);
  }

  // The history of every run, of any length and in any interleaving, is lawful
  // and accounts for the whole state.
  lemma {:induction false} Preserved(c: Config, s: State, ls: seq<Label>)
    requires Inv(c, s)
    ensures Inv(c, Exec(c, s, ls))
    decreases |ls|
  {
    if ls != [] {
      StepKeeps(c, s, ls[0]);
      Preserved(c, Next(c, s, ls[0]), ls[1..]);
    }
  }

  lemma EveryRun(c: Config, ls: seq<Label>)
    ensures Inv(c, Exec(c, Start(c), ls))
  {
    StartOk(c);
    Preserved(c, Start(c), ls);
  }
}
