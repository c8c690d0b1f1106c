// When a task can have a lock record, now or later, without being admitted anew: the
// exact condition, from any state of the gate, behind "a removed task goes through
// the gate from scratch" (Forget and approve in pkg/approval/gate.go). A body that is a
// bare case split keeps the two cases in separate, small queries.
module GateRemoval {
  import opened Records
  import opened GateModel
  import opened GateHistory
  import opened GateInvariant
  import opened GateInterleavings

  // A version an approve call would accept.
  predicate Approvable(pending: map<string, Entry>, id: string) {
    id in pending && pending[id].hash != ""
  }

  // An approve call has read the entry and is yet to write the lock.
  predicate IsRecording(approvers: map<nat, ApprovePc>, t: nat, id: string) {
    t in approvers && approvers[t].Recording? && approvers[t].id == id
  }

  ghost predicate BeingApproved(approvers: map<nat, ApprovePc>, id: string) {
    exists t :: IsRecording(approvers, t, id)
  }

  // The reconciler is admitting a version with a hash, and is yet to record or
  // publish it.
  predicate BeingAdmitted(pc: ReconPc, id: string) {
    match pc
    case Hashing(k, h, _) => k.id == id && h != ""
    case Deciding(k, h, _) => k.id == id && h != ""
    case Window(k, h, _) => k.id == id && h != ""
    case Pend(k, h, _) => k.id == id && h != ""
    case Compared(k, h, _, _, _) => k.id == id && h != ""
    case Based(k, h, _, _, _, _, _, _) => k.id == id && h != ""
    case Auto(k, h, _, _) => k.id == id && h != ""
    case AutoChecked(k, h, _, _, _) => k.id == id && h != ""
    case AutoCleared(k, h, _, _, _) => k.id == id && h != ""
    case _ => false
  }

  ghost predicate Recordable(s: State, id: string) {
    || id in s.tasks
    || Approvable(s.pending, id)
    || BeingApproved(s.approvers, id)
    || BeingAdmitted(s.recon, id)
  }

  // ---- What is not recordable does not become so ----------------------------------

  lemma RetainKeeps(s: State, k: Task, h: string, obs: nat, id: string)
    requires !Recordable(s, id) && (k.id != id || h == "")
    ensures !Recordable(Retain(s, k, h, obs), id)
  {
  }

  lemma AutoDecideKeeps(s: State, k: Task, h: string, obs: nat, via: By, id: string)
    requires !Recordable(s, id) && (k.id != id || h == "")
    ensures !Recordable(AutoDecide(s, k, h, obs, via), id)
  {
  }

  lemma UntrustedDecideKeeps(c: Config, s: State, k: Task, h: string, obs: nat, id: string)
    requires !Recordable(s, id) && (k.id != id || h == "") && PolicyArm(c, k.id) == None
    ensures !Recordable(Decide(c, s, k, h, obs), id)
  {
    if Approved(s.tasks, k.id, h) {} else {}
  }

  lemma DecideKeeps(c: Config, s: State, k: Task, h: string, obs: nat, id: string)
    requires !Recordable(s, id) && (k.id != id || h == "")
    ensures !Recordable(Decide(c, s, k, h, obs), id)
  {
    var arm := PolicyArm(c, k.id);
    if arm == None { UntrustedDecideKeeps(c, s, k, h, obs, id); }
    else { AutoDecideKeeps(s, k, h, obs, arm.value, id); }
  }

  lemma WindowKeeps(s: State, k: Task, h: string, obs: nat, id: string)
    requires !Recordable(s, id) && (k.id != id || h == "")
    ensures !Recordable(LookAtWindow(s, k, h, obs), id)
  {
    if s.bootstrap { AutoDecideKeeps(s, k, h, obs, Bootstrap, id); }
  }

  lemma WithdrawKeeps(s: State, id': string, cause: nat, pc: ReconPc, id: string)
    requires !Recordable(s, id) && !BeingAdmitted(pc, id)
    ensures !Recordable(Withdraw(s, id', cause, pc), id)
  {
    if id' in s.pending {} else {}
  }

  lemma PublishKeeps(s: State, ent: Entry, obs: nat, at: nat, notify: bool, id: string)
    requires !Recordable(s, id) && (ent.task.id != id || ent.hash == "")
    ensures !Recordable(Publish(s, ent, obs, at, notify), id)
  {
  }

  lemma FinishKeeps(s: State, ent: Entry, notify: bool, id: string)
    requires !Recordable(s, id)
    ensures !Recordable(Finish(s, ent, notify), id)
  {
  }

  lemma AutoRecordKeeps(s: State, env: Env, k: Task, h: string, via: By, dec: nat, known: bool, id: string)
    requires !Recordable(s, id) && (k.id != id || h == "")
    ensures !Recordable(AutoRecord(s, env, k, h, via, dec, known), id)
  {
    if h == "" {} else {}
  }

  lemma DecidingKeeps(c: Config, s: State, env: Env, id: string)
    requires !Recordable(s, id) && (s.recon.Hashing? || s.recon.Deciding? || s.recon.Window?)
    ensures !Recordable(NextAdmit(c, s, env), id)
  {
    match s.recon
    case Hashing(k, h, obs) => RetainKeeps(s, k, h, obs, id);
    case Deciding(k, h, obs) => DecideKeeps(c, s, k, h, obs, id);
    case Window(k, h, obs) => WindowKeeps(s, k, h, obs, id);
  }

  lemma HoldingKeeps(c: Config, s: State, env: Env, id: string)
    requires !Recordable(s, id) && (s.recon.Based? || s.recon.Held?)
    ensures !Recordable(NextAdmit(c, s, env), id)
  {
    match s.recon
    case Based(k, h, obs, at, notify, commit, remote, base) =>
      PublishKeeps(s, Entry(k, h, commit, remote, base, ResolvedEnabled(c, k), |s.hist|), obs, at, notify, id);
    case Held(ent, notify) => FinishKeeps(s, ent, notify, id);
  }

  lemma ComparingKeeps(c: Config, s: State, env: Env, id: string)
    requires !Recordable(s, id) && (s.recon.Idle? || s.recon.Pend? || s.recon.Compared?)
    ensures !Recordable(NextAdmit(c, s, env), id)
  {
  }

  lemma AutoKeeps(c: Config, s: State, env: Env, id: string)
    requires !Recordable(s, id) && (s.recon.AutoChecked? || s.recon.AutoCleared? || s.recon.Approving?)
    ensures !Recordable(NextAdmit(c, s, env), id)
  {
    match s.recon
    case Approving(k, cause) => WithdrawKeeps(s, k.id, cause, Arming(k), id);
    case AutoChecked(k, h, via, dec, known) =>
      WithdrawKeeps(s, k.id, dec, AutoCleared(k, h, via, dec, known), id);
    case AutoCleared(k, h, via, dec, known) => AutoRecordKeeps(s, env, k, h, via, dec, known, id);
  }

  lemma ArmingKeeps(c: Config, s: State, env: Env, id: string)
    requires !Recordable(s, id) && (s.recon.Auto? || s.recon.Arming?)
    ensures !Recordable(NextAdmit(c, s, env), id)
  {
  }

  lemma ForgettingKeeps(c: Config, s: State, env: Env, id: string)
    requires !Recordable(s, id) && (s.recon.Forgetting? || s.recon.Forgotten? || s.recon.Unrecording?)
    ensures !Recordable(NextAdmit(c, s, env), id)
  {
    if s.recon.Forgetting? { WithdrawKeeps(s, s.recon.id, s.recon.cause, Forgotten(s.recon.id), id); }
  }

  lemma ReconcilerKeeps(c: Config, s: State, env: Env, id: string)
    requires !Recordable(s, id)
    ensures !Recordable(NextAdmit(c, s, env), id)
  {
    var pc := s.recon;
    if pc.Hashing? || pc.Deciding? || pc.Window? { DecidingKeeps(c, s, env, id); }
    else if pc.Based? || pc.Held? { HoldingKeeps(c, s, env, id); }
    else if pc.Idle? || pc.Pend? || pc.Compared? { ComparingKeeps(c, s, env, id); }
    else if pc.AutoChecked? || pc.AutoCleared? || pc.Approving? { AutoKeeps(c, s, env, id); }
    else if pc.Auto? || pc.Arming? { ArmingKeeps(c, s, env, id); }
    else { ForgettingKeeps(c, s, env, id); }
  }

  // Approve calls and the rest only move among the others.
  lemma NotBeingApproved(approvers: map<nat, ApprovePc>, approvers': map<nat, ApprovePc>, t: nat, id: string)
    requires !BeingApproved(approvers, id) && !IsRecording(approvers', t, id)
    requires approvers' - {t} == approvers - {t}
    ensures !BeingApproved(approvers', id)
  {
    forall u ensures !IsRecording(approvers', u, id) {
      assert !IsRecording(approvers, u, id);
      if u != t && u in approvers' { assert u in approvers' - {t}; }
    }
  }

  lemma GrantKeeps(s: State, t: nat, env: Env, id': string, ent: Entry, want: string, read: nat, id: string)
    requires !Recordable(s, id) && id' != id
    ensures !Recordable(Grant(s, t, env, id', ent, want, read), id)
  {
    NotBeingApproved(s.approvers, Grant(s, t, env, id', ent, want, read).approvers, t, id);
  }

  lemma ArmKeeps(s: State, t: nat, env: Env, id': string, ent: Entry, read: nat, id: string)
    requires !Recordable(s, id)
    ensures !Recordable(ArmApproved(s, t, env, id', ent, read), id)
  {
    NotBeingApproved(s.approvers, ArmApproved(s, t, env, id', ent, read).approvers, t, id);
  }

  lemma ClearKeeps(s: State, t: nat, id': string, ent: Entry, read: nat, id: string)
    requires !Recordable(s, id)
    ensures !Recordable(Clear(s, t, id', ent, read), id)
  {
    NotBeingApproved(s.approvers, s.approvers - {t}, t, id);
    if id' in s.pending && s.pending[id'].hash == ent.hash {} else {}
  }

  lemma BeginningKeeps(s: State, t: nat, id': string, want: string, id: string)
    requires !Recordable(s, id)
    ensures !Recordable(BeginApprove(s, t, id', want), id)
  {
    var s' := BeginApprove(s, t, id', want);
    forall u ensures !IsRecording(s'.approvers, u, id) {
      assert !IsRecording(s.approvers, u, id);
    }
  }

  lemma ApprovingKeeps(s: State, t: nat, env: Env, id: string)
    requires !Recordable(s, id)
    ensures !Recordable(NextApprove(s, t, env), id)
  {
    if t in s.approvers {
      assert !IsRecording(s.approvers, t, id);
      match s.approvers[t]
      case Recording(id', ent, want, read) => GrantKeeps(s, t, env, id', ent, want, read, id);
      case ArmingApproved(id', ent, read) => ArmKeeps(s, t, env, id', ent, read, id);
      case Clearing(id', ent, read) => ClearKeeps(s, t, id', ent, read, id);
    }
  }

  // Firing goroutines move no table and no approve call.
  predicate FiresOnly(s: State, s': State) {
    s'.tasks == s.tasks && s'.pending == s.pending && s'.approvers == s.approvers && s'.recon == s.recon
  }

  lemma FireTrusts(c: Config, s: State, t: nat, id: string, began: nat)
    ensures FiresOnly(s, Trust(c, s, t, id, began))
  {
  }

  lemma FireHandles(s: State, t: nat, id: string, began: nat)
    ensures FiresOnly(s, Handle(s, t, id, began))
  {
    if id in s.admitted {} else {}
  }

  lemma FireHashes(s: State, t: nat, k: Task, began: nat, handled: nat)
    ensures FiresOnly(s, HashLive(s, t, k, began, handled))
  {
    if k in s.disk {} else {}
  }

  lemma FiringKeeps(c: Config, s: State, t: nat, id: string)
    requires !Recordable(s, id)
    ensures !Recordable(NextFire(c, s, t), id)
  {
    if t in s.fires {
      match s.fires[t]
      case Trusting(id', began) => FireTrusts(c, s, t, id', began);
      case Handling(id', began) => FireHandles(s, t, id', began);
      case HashingLive(k, began, handled) => FireHashes(s, t, k, began, handled);
      case Checking(k, live, hashed) => assert FiresOnly(s, Check(s, t, k, live, hashed));
    }
  }

  predicate Admits(l: Label, id: string) {
    l.StartAdmit? && l.task.id == id
  }

  lemma FireBegins(s: State, t: nat, id: string)
    ensures FiresOnly(s, BeginFire(s, t, id))
  {
    if t in s.fires {} else if id in s.pending {} else {}
  }

  lemma ReconcilerStartKeeps(c: Config, s: State, l: Label, id: string)
    requires !Recordable(s, id) && !Admits(l, id) && (l.StartAdmit? || l.StartForget?)
    ensures !Recordable(Next(c, s, l), id)
  {
  }

  lemma EnvironmentKeeps(c: Config, s: State, l: Label, id: string)
    requires !Recordable(s, id) && (l.Edit? || l.EndWindow?)
    ensures !Recordable(Next(c, s, l), id)
  {
  }

  lemma StepKeeps(c: Config, s: State, l: Label, id: string)
    requires !Recordable(s, id) && !Admits(l, id)
    ensures !Recordable(Next(c, s, l), id)
  {
    if l.Recon? { ReconcilerKeeps(c, s, l.env, id); }
    else if l.StartApprove? { BeginningKeeps(s, l.t, l.id, l.want, id); }
    else if l.Approve? { ApprovingKeeps(s, l.t, l.env, id); }
    else if l.Fire? { FiringKeeps(c, s, l.t, id); }
    else if l.StartFire? { FireBegins(s, l.t, l.id); }
    else if l.Edit? || l.EndWindow? { EnvironmentKeeps(c, s, l, id); }
    else { ReconcilerStartKeeps(c, s, l, id); }
  }

  lemma {:induction false} StaysUnrecordable(c: Config, s: State, ls: seq<Label>, id: string)
    requires !Recordable(s, id) && forall l :: l in ls ==> !Admits(l, id)
    ensures !Recordable(Exec(c, s, ls), id)
    decreases |ls|
  {
    if ls != [] {
      assert ls[0] in ls && forall l :: l in ls[1..] ==> l in ls;
      StepKeeps(c, s, ls[0], id);
      StaysUnrecordable(c, Next(c, s, ls[0]), ls[1..], id);
    }
  }

  // ---- What is recordable gets recorded --------------------------------------------

  function StepsToRecord(pc: ReconPc): nat {
    match pc
    case Hashing(_, _, _) => 9
    case Deciding(_, _, _) => 8
    case Window(_, _, _) => 7
    case Pend(_, _, _) => 6
    case Compared(_, _, _, _, _) => 5
    case Based(_, _, _, _, _, _, _, _) => 4
    case Auto(_, _, _, _) => 3
    case AutoChecked(_, _, _, _, _) => 2
    case AutoCleared(_, _, _, _, _) => 1
    case _ => 0
  }

  // The admission goes on, or has recorded or published its version.
  predicate GoesOn(s: State, s': State, id: string) {
    || id in s'.tasks
    || Approvable(s'.pending, id)
    || (BeingAdmitted(s'.recon, id) && StepsToRecord(s'.recon) < StepsToRecord(s.recon))
  }

  lemma DecidingGoesOn(c: Config, s: State, env: Env, id: string)
    requires BeingAdmitted(s.recon, id) && (s.recon.Hashing? || s.recon.Deciding? || s.recon.Window?)
    ensures GoesOn(s, NextAdmit(c, s, env), id)
  {
    match s.recon
    case Hashing(k, h, obs) =>
    case Deciding(k, h, obs) => DecideGoesOn(c, s, k, h, obs, id);
    case Window(k, h, obs) =>
  }

  lemma DecideGoesOn(c: Config, s: State, k: Task, h: string, obs: nat, id: string)
    requires s.recon == Deciding(k, h, obs) && k.id == id && h != ""
    ensures GoesOn(s, Decide(c, s, k, h, obs), id)
  {
    if PolicyArm(c, id) != None {
      assert Decide(c, s, k, h, obs) == AutoDecide(s, k, h, obs, PolicyArm(c, id).value);
    } else if Approved(s.tasks, id, h) {
    } else {}
  }

  lemma HoldingGoesOn(c: Config, s: State, env: Env, id: string)
    requires BeingAdmitted(s.recon, id) && (s.recon.Pend? || s.recon.Compared? || s.recon.Based?)
    ensures GoesOn(s, NextAdmit(c, s, env), id)
  {
  }

  lemma ClearingGoesOn(s: State, k: Task, h: string, via: By, dec: nat, known: bool)
    requires s.recon == AutoChecked(k, h, via, dec, known) && h != ""
    ensures GoesOn(s, Withdraw(s, k.id, dec, AutoCleared(k, h, via, dec, known)), k.id)
  {
    if k.id in s.pending {} else {}
  }

  lemma AutoGoesOn(c: Config, s: State, env: Env, id: string)
    requires BeingAdmitted(s.recon, id) && (s.recon.Auto? || s.recon.AutoChecked?)
    ensures GoesOn(s, NextAdmit(c, s, env), id)
  {
    if s.recon.AutoChecked? {
      ClearingGoesOn(s, s.recon.k, s.recon.h, s.recon.via, s.recon.dec, s.recon.known);
    }
  }

  lemma AutoRecords(c: Config, s: State, env: Env, id: string)
    requires BeingAdmitted(s.recon, id) && s.recon.AutoCleared?
    ensures id in NextAdmit(c, s, env).tasks
  {
  }

  lemma {:induction false} AdmissionRecords(c: Config, s: State, env: Env, id: string) returns (ls: seq<Label>)
    requires BeingAdmitted(s.recon, id)
    ensures id in Exec(c, s, ls).tasks || Approvable(Exec(c, s, ls).pending, id)
    ensures forall l :: l in ls ==> !Admits(l, id)
    decreases StepsToRecord(s.recon)
  {
    var pc, s1 := s.recon, NextAdmit(c, s, env);
    if pc.Hashing? || pc.Deciding? || pc.Window? { DecidingGoesOn(c, s, env, id); }
    else if pc.Pend? || pc.Compared? || pc.Based? { HoldingGoesOn(c, s, env, id); }
    else if pc.AutoCleared? { AutoRecords(c, s, env, id); }
    else { AutoGoesOn(c, s, env, id); }
    var rest := [];
    if id !in s1.tasks && !Approvable(s1.pending, id) { rest := AdmissionRecords(c, s1, env, id); }
    ls := [Recon(env)] + rest;
    assert ls[1..] == rest;
  }

  // There is always another goroutine.
  lemma {:induction false} Fresh(taken: set<nat>) returns (t: nat)
    ensures t !in taken && forall u :: u in taken ==> u < t
  {
    if taken == {} {
      t := 0;
    } else {
      var u :| u in taken;
      var v := Fresh(taken - {u});
      t := if u < v then v else u + 1;
      assert taken == (taken - {u}) + {u};
    }
  }

  lemma GrantRecords(c: Config, s: State, env: Env, t: nat, id: string)
    requires IsRecording(s.approvers, t, id)
    ensures id in Next(c, s, Approve(t, env)).tasks
  {
    var Recording(_, ent, want, read) := s.approvers[t];
    assert Next(c, s, Approve(t, env)) == Grant(s, t, env, id, ent, want, read);
  }

  lemma ApprovalStarts(c: Config, s: State, t: nat, id: string)
    requires Approvable(s.pending, id) && t !in s.approvers
    ensures IsRecording(Next(c, s, StartApprove(t, id, "")).approvers, t, id)
  {
  }

  lemma ApprovableRecords(c: Config, s: State, env: Env, id: string) returns (ls: seq<Label>)
    requires Approvable(s.pending, id)
    ensures id in Exec(c, s, ls).tasks && forall l :: l in ls ==> !Admits(l, id)
  {
    var t := Fresh(s.approvers.Keys);
    ApprovalStarts(c, s, t, id);
    var s1 := Next(c, s, StartApprove(t, id, ""));
    GrantRecords(c, s1, env, t, id);
    ls := [StartApprove(t, id, "")] + [Approve(t, env)];
    OneStep(c, s, [StartApprove(t, id, "")], Approve(t, env));
    OneStep(c, s, [], StartApprove(t, id, ""));
    assert [] + [StartApprove(t, id, "")] == [StartApprove(t, id, "")];
  }

  lemma RecordableRecords(c: Config, s: State, env: Env, id: string) returns (ls: seq<Label>)
    requires Recordable(s, id)
    ensures id in Exec(c, s, ls).tasks && forall l :: l in ls ==> !Admits(l, id)
  {
    ls := [];
    if t :| IsRecording(s.approvers, t, id) {
      GrantRecords(c, s, env, t, id);
      OneStep(c, s, [], Approve(t, env));
      ls := [] + [Approve(t, env)];
    } else if id !in s.tasks {
      if !Approvable(s.pending, id) { ls := AdmissionRecords(c, s, env, id); }
      var s1 := Exec(c, s, ls);
      if id !in s1.tasks {
        var rest := ApprovableRecords(c, s1, env, id);
        ExecAppend(c, s, ls, rest);
        ls := ls + rest;
      }
    }
  }

  // ---- The exact condition ----------------------------------------------------------

  // ls admits id nowhere and ends with a record of it.
  predicate RecordsWithoutAdmit(c: Config, s: State, ls: seq<Label>, id: string) {
    id in Exec(c, s, ls).tasks && forall l :: l in ls ==> !Admits(l, id)
  }

  // From any state, a task that is not admitted anew can have a record if and only if
  // it has one, a version of it waits for approval, an approve call has read one and is
  // yet to write the lock, or the reconciler is admitting one right now.
  lemma RecordableExactly(c: Config, s: State, id: string)
    ensures (exists ls :: RecordsWithoutAdmit(c, s, ls, id)) <==> Recordable(s, id)
  {
    if ls :| RecordsWithoutAdmit(c, s, ls, id) {
      if !Recordable(s, id) { StaysUnrecordable(c, s, ls, id); }
    }
    if Recordable(s, id) {
      var ls := RecordableRecords(c, s, Env("", "", 0, true, true), id);
      assert RecordsWithoutAdmit(c, s, ls, id);
    }
  }

  // So when Forget has removed the record, in any run, the task can have one again
  // without going through Admit if and only if an approve call that read its entry is
  // yet to write the lock.
  lemma ForgottenForGoodExactly(c: Config, ls: seq<Label>, env: Env, id: string)
    requires Exec(c, Start(c), ls).recon == Unrecording(id)
    ensures
      var s := Next(c, Exec(c, Start(c), ls), Recon(env));
      (exists more :: RecordsWithoutAdmit(c, s, more, id)) <==> BeingApproved(s.approvers, id)
  {
    var s0 := Exec(c, Start(c), ls);
    EveryRun(c, ls);
    assert id !in s0.pending;
    var s := Unrecord(s0, id);
    assert Next(c, s0, Recon(env)) == s;
    RecordableExactly(c, s, id);
  }
}
