// The approval gate as a small-step system: one step per critical section of
// Admit, Forget, approve and FireGuard, with one program counter for the single
// reconciler and one for every approving and firing goroutine. The steps of
// different goroutines, edits of task directories and the end of the bootstrap
// window interleave freely (pkg/approval/gate.go, OnRegister / OnUnregister in
// pkg/daemon/daemon.go).
module GateModel {
  import opened Records
  import opened TaskIds

  // ---- Static configuration -------------------------------------------------

  // A task handle. What its directory hashes to is part of the state.
  datatype Task = Task(id: string, dir: int, enabled: bool)

  datatype Config = Config(
    enabled: bool,
    trustedSources: set<string>,
    trustedTasks: set<string>,
    builtinPinned: bool,
    // Resolved enabled flag of the handles previewFn changes; the others keep theirs.
    preview: map<Task, bool>,
    // State at startup.
    records: RecordMap,
    window: bool,
    disk: map<Task, string>)

  const BUILTIN_SOURCE := "buildin"

  // The arms of Admit that do not look at the content hash, in their order.
  function PolicyArm(c: Config, id: string): Option<By> {
    if SourceOf(id) == BUILTIN_SOURCE && !c.builtinPinned then Some(Builtin)
    else if id in c.trustedTasks then Some(TrustedTask)
    else if SourceOf(id) in c.trustedSources then Some(TrustedSource)
    else if !c.enabled then Some(GateDisabled)
    else None
  }

  // The switch FireGuard uses.
  predicate Trusted(c: Config, id: string) {
    || (SourceOf(id) == BUILTIN_SOURCE && !c.builtinPinned)
    || id in c.trustedTasks
    || SourceOf(id) in c.trustedSources
    || !c.enabled
  }

  // The hash-independent arms of Admit are exactly what FireGuard calls trusted.
  lemma TrustedIsPolicyArm(c: Config, id: string)
    ensures Trusted(c, id) <==> PolicyArm(c, id).Some?
  {
  }

  function ResolvedEnabled(c: Config, k: Task): bool {
    if k in c.preview then c.preview[k] else k.enabled
  }

  // ---- Events ---------------------------------------------------------------

  // One published pending generation. `gen` is its position in the history.
  datatype Entry = Entry(task: Task, hash: string, commit: string, remote: string,
                         base: string, enabled: bool, gen: nat)
  {
    // Same version of the task as far as the notification hook is concerned.
    predicate SameVersion(hash: string, enabled: bool) {
      this.hash == hash && this.enabled == enabled
    }
  }

  // Ghost history. A `nat` field is the position of an earlier event, or of an
  // earlier moment (a length of the history then).
  datatype Event =
    // environment
    | Edited(task: Task, content: Option<string>)
    | WindowClosed
    // reconciler
    | Observed(task: Task, hash: string)
    | Retained(task: Task)
    | Decided(id: string, hash: string, via: By, observed: nat)
    | Published(ent: Entry, observed: nat, compared: nat, notify: bool)
    | Notified(ent: Entry)
    | Matched(id: string, hash: string, observed: nat)  // the lock holds the observed hash
    | Withdrawn(id: string, cause: nat)        // reconciler cleared a pending entry
    | AutoGranted(id: string, hash: string, via: By, decided: nat)
    | Forgets(id: string)
    | Dropped(id: string)
    | Revoked(id: string)
    // approvers
    | Read(id: string, want: string, gen: nat)
    | Granted(id: string, hash: string, via: By, read: nat)
    | Accepted(id: string, read: nat)          // approver cleared the pending entry
    // fire guard
    | Began(id: string)
    | Waved(id: string)
    | Hashed(task: Task, hash: string, began: nat, handled: nat)
    | Fired(task: Task, hash: string, hashed: nat)
    | Vetoed(id: string)

  // ---- State ----------------------------------------------------------------

  datatype ReconPc =
    | Idle
    | Hashing(k: Task, h: string, obs: nat)             // hash taken, handle not yet retained
    | Deciding(k: Task, h: string, obs: nat)
    | Window(k: Task, h: string, obs: nat)              // lock said no, bootstrap flag next
    | Approving(k: Task, cause: nat)                      // lock said yes, pending to clear
    | Pend(k: Task, h: string, obs: nat)
    | Compared(k: Task, h: string, obs: nat, at: nat, notify: bool)
    | Based(k: Task, h: string, obs: nat, at: nat, notify: bool, commit: string, remote: string, base: string)
    | Held(ent: Entry, notify: bool)                    // published; hook and disarm next
    | Auto(k: Task, h: string, via: By, dec: nat)
    | AutoChecked(k: Task, h: string, via: By, dec: nat, known: bool)
    | AutoCleared(k: Task, h: string, via: By, dec: nat, known: bool)
    | Arming(k: Task)
    | Forgetting(id: string, cause: nat)                // disarmed; pending to clear
    | Forgotten(id: string)                             // handle to drop
    | Unrecording(id: string)                           // record to remove

  datatype ApprovePc =
    | Recording(id: string, ent: Entry, want: string, read: nat)
    | ArmingApproved(id: string, ent: Entry, read: nat)
    | Clearing(id: string, ent: Entry, read: nat)

  datatype FirePc =
    | Trusting(id: string, began: nat)
    | Handling(id: string, began: nat)
    | HashingLive(k: Task, began: nat, handled: nat)
    | Checking(k: Task, live: string, hashed: nat)

  datatype State = State(
    disk: map<Task, string>,      // what hashFn returns now; no entry: an error
    tasks: RecordMap,
    pending: map<string, Entry>,
    admitted: map<string, Task>,
    bootstrap: bool,
    armed: map<string, Task>,
    recon: ReconPc,
    approvers: map<nat, ApprovePc>,
    fires: map<nat, FirePc>,
    hist: seq<Event>)

  function Start(c: Config): State {
    State(c.disk, c.records, map[], map[], c.window, map[], Idle, map[], map[], [])
  }

  // Results of calls into code outside the gate, chosen freely at each step.
  datatype Env = Env(commit: string, remote: string, at: int, saved: bool, armOk: bool)

  datatype Label =
    | Edit(task: Task, content: Option<string>)
    | EndWindow
    | StartAdmit(task: Task)
    | StartForget(id: string)
    | Recon(env: Env)
    | StartApprove(t: nat, id: string, want: string)
    | Approve(t: nat, env: Env)
    | StartFire(t: nat, id: string)
    | Fire(t: nat)

  function HashNow(disk: map<Task, string>, k: Task): string {
    if k in disk then disk[k] else ""
  }

  // ---- Steps ----------------------------------------------------------------

  function Log(s: State, e: Event): State {
    s.(hist := s.hist + [e])
  }

  // g.admitted[id] = k
  function Retain(s: State, k: Task, h: string, obs: nat): State {
    s.(hist := s.hist + [Retained(k)], admitted := s.admitted[k.id := k], recon := Deciding(k, h, obs))
  }

  function Decide(c: Config, s: State, k: Task, h: string, obs: nat): State {
    var arm := PolicyArm(c, k.id);
    if arm.Some? then AutoDecide(s, k, h, obs, arm.value)
    else if Approved(s.tasks, k.id, h)
    then s.(hist := s.hist + [Matched(k.id, h, obs)], recon := Approving(k, |s.hist|))
    else s.(recon := Window(k, h, obs))
  }

  function AutoDecide(s: State, k: Task, h: string, obs: nat, via: By): State {
    s.(hist := s.hist + [Decided(k.id, h, via, obs)], recon := Auto(k, h, via, |s.hist|))
  }

  function LookAtWindow(s: State, k: Task, h: string, obs: nat): State {
    if s.bootstrap then AutoDecide(s, k, h, obs, Bootstrap) else s.(recon := Pend(k, h, obs))
  }

  function Compare(c: Config, s: State, k: Task, h: string, obs: nat): State {
    var same := k.id in s.pending && s.pending[k.id].SameVersion(h, ResolvedEnabled(c, k));
    s.(recon := Compared(k, h, obs, |s.hist|, !same))
  }

  function Base(s: State, env: Env, k: Task, h: string, obs: nat, at: nat, notify: bool): State {
    var base := if k.id in s.tasks then s.tasks[k.id].commit else "";
    s.(recon := Based(k, h, obs, at, notify, env.commit, env.remote, base))
  }

  // hash, commit, remote, base and enabled become visible together.
  function Publish(s: State, ent: Entry, obs: nat, at: nat, notify: bool): State {
    s.(hist := s.hist + [Published(ent, obs, at, notify)],
       pending := s.pending[ent.task.id := ent],
       recon := Held(ent, notify))
  }

  // The hook, then the disarm of OnRegister.
  function Finish(s: State, ent: Entry, notify: bool): State {
    if notify then s.(hist := s.hist + [Notified(ent)], armed := s.armed - {ent.task.id}, recon := Idle)
    else s.(armed := s.armed - {ent.task.id}, recon := Idle)
  }

  // clearPending, on behalf of the event at cause.
  function Withdraw(s: State, id: string, cause: nat, pc: ReconPc): State {
    if id in s.pending then s.(hist := s.hist + [Withdrawn(id, cause)], pending := s.pending - {id}, recon := pc)
    else s.(recon := pc)
  }

  // A failed save leaves the record in memory and does not stop the arm.
  function AutoRecord(s: State, env: Env, k: Task, h: string, via: By, dec: nat, known: bool): State {
    if h == "" then s.(recon := Arming(k))
    else
      s.(hist := s.hist + [AutoGranted(k.id, h, via, dec)],
         tasks := Recorded(s.tasks, k.id, Record(h, env.at, via, if known then "" else env.commit)),
         recon := Arming(k))
  }

  function Arm(s: State, env: Env, k: Task): State {
    s.(armed := if env.armOk then s.armed[k.id := k] else s.armed, recon := Idle)
  }

  function DropHandle(s: State, id: string): State {
    s.(hist := s.hist + [Dropped(id)], admitted := s.admitted - {id}, recon := Unrecording(id))
  }

  function Unrecord(s: State, id: string): State {
    s.(hist := s.hist + [Revoked(id)], tasks := Removed(s.tasks, id), recon := Idle)
  }

  function NextAdmit(c: Config, s: State, env: Env): State {
    match s.recon
    case Idle => s
    case Hashing(k, h, obs) => Retain(s, k, h, obs)
    case Deciding(k, h, obs) => Decide(c, s, k, h, obs)
    case Window(k, h, obs) => LookAtWindow(s, k, h, obs)
    case Approving(k, cause) => Withdraw(s, k.id, cause, Arming(k))
    case Pend(k, h, obs) => Compare(c, s, k, h, obs)
    case Compared(k, h, obs, at, notify) => Base(s, env, k, h, obs, at, notify)
    case Based(k, h, obs, at, notify, commit, remote, base) =>
      Publish(s, Entry(k, h, commit, remote, base, ResolvedEnabled(c, k), |s.hist|), obs, at, notify)
    case Held(ent, notify) => Finish(s, ent, notify)
    case Auto(k, h, via, dec) => s.(recon := AutoChecked(k, h, via, dec, Approved(s.tasks, k.id, h)))
    case AutoChecked(k, h, via, dec, known) => Withdraw(s, k.id, dec, AutoCleared(k, h, via, dec, known))
    case AutoCleared(k, h, via, dec, known) => AutoRecord(s, env, k, h, via, dec, known)
    case Arming(k) => Arm(s, env, k)
    case Forgetting(id, cause) => Withdraw(s, id, cause, Forgotten(id))
    case Forgotten(id) => DropHandle(s, id)
    case Unrecording(id) => Unrecord(s, id)
  }

  function BeginApprove(s: State, t: nat, id: string, want: string): State {
    if t in s.approvers || id !in s.pending then s
    else
      var ent := s.pending[id];
      if ent.hash == "" || (want != "" && ent.hash != want) then s
      else
        s.(hist := s.hist + [Read(id, want, ent.gen)],
           approvers := s.approvers[t := Recording(id, ent, want, |s.hist|)])
  }

  // Record is a no-op at an unchanged hash; otherwise memory changes even when
  // the save fails and the call ends with an error.
  function Grant(s: State, t: nat, env: Env, id: string, ent: Entry, want: string, read: nat): State {
    var via := if want == "" then Manual else TokenLink;
    var done := Approved(s.tasks, id, ent.hash) || env.saved;
    s.(hist := s.hist + [Granted(id, ent.hash, via, read)],
       tasks := Recorded(s.tasks, id, Record(ent.hash, env.at, via, ent.commit)),
       approvers := if done then s.approvers[t := ArmingApproved(id, ent, read)] else s.approvers - {t})
  }

  function ArmApproved(s: State, t: nat, env: Env, id: string, ent: Entry, read: nat): State {
    if env.armOk then s.(armed := s.armed[id := ent.task], approvers := s.approvers[t := Clearing(id, ent, read)])
    else s.(approvers := s.approvers - {t})
  }

  // Only an entry at the approved hash is cleared.
  function Clear(s: State, t: nat, id: string, ent: Entry, read: nat): State {
    if id in s.pending && s.pending[id].hash == ent.hash
    then s.(hist := s.hist + [Accepted(id, read)], pending := s.pending - {id}, approvers := s.approvers - {t})
    else s.(approvers := s.approvers - {t})
  }

  function NextApprove(s: State, t: nat, env: Env): State {
    if t !in s.approvers then s
    else
      match s.approvers[t]
      case Recording(id, ent, want, read) => Grant(s, t, env, id, ent, want, read)
      case ArmingApproved(id, ent, read) => ArmApproved(s, t, env, id, ent, read)
      case Clearing(id, ent, read) => Clear(s, t, id, ent, read)
  }

  function BeginFire(s: State, t: nat, id: string): State {
    if t in s.fires then s
    else if id in s.pending then Log(s, Vetoed(id))
    else s.(hist := s.hist + [Began(id)], fires := s.fires[t := Trusting(id, |s.hist|)])
  }

  function Trust(c: Config, s: State, t: nat, id: string, began: nat): State {
    if Trusted(c, id) then s.(hist := s.hist + [Waved(id)], fires := s.fires - {t})
    else s.(fires := s.fires[t := Handling(id, began)])
  }

  function Handle(s: State, t: nat, id: string, began: nat): State {
    if id in s.admitted then s.(fires := s.fires[t := HashingLive(s.admitted[id], began, |s.hist|)])
    else s.(hist := s.hist + [Vetoed(id)], fires := s.fires - {t})
  }

  function HashLive(s: State, t: nat, k: Task, began: nat, handled: nat): State {
    if k in s.disk
    then
      s.(hist := s.hist + [Hashed(k, s.disk[k], began, handled)],
         fires := s.fires[t := Checking(k, s.disk[k], |s.hist|)])
    else s.(hist := s.hist + [Vetoed(k.id)], fires := s.fires - {t})
  }

  function Check(s: State, t: nat, k: Task, live: string, hashed: nat): State {
    s.(hist := s.hist + [if Approved(s.tasks, k.id, live) then Fired(k, live, hashed) else Vetoed(k.id)],
       fires := s.fires - {t})
  }

  function NextFire(c: Config, s: State, t: nat): State {
    if t !in s.fires then s
    else
      match s.fires[t]
      case Trusting(id, began) => Trust(c, s, t, id, began)
      case Handling(id, began) => Handle(s, t, id, began)
      case HashingLive(k, began, handled) => HashLive(s, t, k, began, handled)
      case Checking(k, live, hashed) => Check(s, t, k, live, hashed)
  }

  // A label whose step is not enabled leaves the state alone, so every sequence
  // of labels is a run and every interleaving is such a sequence.
  function Next(c: Config, s: State, l: Label): State {
    match l
    case Edit(k, content) =>
      s.(hist := s.hist + [Edited(k, content)],
         disk := if content.Some? then s.disk[k := content.value] else s.disk - {k})
    case EndWindow => s.(hist := s.hist + [WindowClosed], bootstrap := false)
    case StartAdmit(k) =>
      if s.recon != Idle then s
      else s.(hist := s.hist + [Observed(k, HashNow(s.disk, k))], recon := Hashing(k, HashNow(s.disk, k), |s.hist|))
    case StartForget(id) =>
      if s.recon != Idle then s
      else s.(hist := s.hist + [Forgets(id)], armed := s.armed - {id}, recon := Forgetting(id, |s.hist|))
    case Recon(env) => NextAdmit(c, s, env)
    case StartApprove(t, id, want) => BeginApprove(s, t, id, want)
    case Approve(t, env) => NextApprove(s, t, env)
    case StartFire(t, id) => BeginFire(s, t, id)
    case Fire(t) => NextFire(c, s, t)
  }

  function Exec(c: Config, s: State, ls: seq<Label>): State
    decreases |ls|
  {
    if ls == [] then s else Exec(c, Next(c, s, ls[0]), ls[1..])
  }
}
