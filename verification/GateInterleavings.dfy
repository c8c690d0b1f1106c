// Orders the gate does allow, so that no stronger theorem is claimed.
module GateInterleavings {
  import opened Records
  import opened GateModel
  import opened GateSequential

  lemma {:induction false} ExecAppend(c: Config, s: State, a: seq<Label>, b: seq<Label>)
    ensures Exec(c, s, a + b) == Exec(c, Exec(c, s, a), b)
    decreases |a|
  {
    if a == [] {
      assert a + b == b;
    } else {
      assert (a + b)[0] == a[0] && (a + b)[1..] == a[1..] + b;
      ExecAppend(c, Next(c, s, a[0]), a[1..], b);
    }
  }

  lemma OneStep(c: Config, s: State, ls: seq<Label>, l: Label)
    ensures Exec(c, s, ls + [l]) == Next(c, Exec(c, s, ls), l)
  {
    ExecAppend(c, s, ls, [l]);
    var s' := Exec(c, s, ls);
    assert [l][1..] == [];
    assert Exec(c, Next(c, s', l), []) == Next(c, s', l);
  }

  // From s, an uninterrupted Admit of k, as one run.
  lemma AdmitRun(c: Config, s: State, k: Task, env: Env) returns (ls: seq<Label>, gen: nat)
    requires s.recon == Idle
    ensures Settled(s, Exec(c, s, ls), AfterAdmit(c, TablesOf(s), k, HashNow(s.disk, k), env, gen))
  {
    var n;
    n, gen := StepsOfAdmit(c, s, k, env);
    var rest := seq(n, _ => Recon(env));
    ls := [StartAdmit(k)] + rest;
    assert ls[1..] == rest;
  }

  // An untrusted, unrecorded task, seen outside the bootstrap window.
  predicate Gated(c: Config, k: Task) {
    PolicyArm(c, k.id) == None && !c.window && k.id !in c.records && k in c.disk && c.disk[k] != ""
  }

  // An approval in flight can arm a task after the reconciler has pended a newer
  // version of it and disarmed it: pending does not imply disarmed.
  lemma ArmedWhilePending(c: Config, k: Task, newer: string, env: Env) returns (ls: seq<Label>)
    requires Gated(c, k) && newer != "" && newer != c.disk[k] && env.saved && env.armOk
    ensures
      var s := Exec(c, Start(c), ls);
      && k.id in s.pending && s.pending[k.id].hash == newer
      && k.id in s.armed && Approved(s.tasks, k.id, c.disk[k])
  {
    var s0 := Start(c);
    var ls1, gen1 := AdmitRun(c, s0, k, env);
    var s1 := Exec(c, s0, ls1);
    assert s1.pending[k.id].hash == c.disk[k] && s1.pending[k.id].task == k && k.id !in s1.tasks;
    var ls2 := ls1 + [StartApprove(0, k.id, "")];
    OneStep(c, s0, ls1, StartApprove(0, k.id, ""));
    var s2 := Exec(c, s0, ls2);
    var ls3 := ls2 + [Edit(k, Some(newer))];
    OneStep(c, s0, ls2, Edit(k, Some(newer)));
    var s3 := Exec(c, s0, ls3);
    assert TablesOf(s3) == TablesOf(s1) && s3.recon == Idle && HashNow(s3.disk, k) == newer;
    ls := ArmsLate(c, s3, k, s1.pending[k.id], |s1.hist|, env, s0, ls3);
  }

  lemma ArmsLate(c: Config, s: State, k: Task, ent: Entry, read: nat, env: Env, s0: State, ls0: seq<Label>)
    returns (ls: seq<Label>)
    requires s == Exec(c, s0, ls0) && s.recon == Idle && PolicyArm(c, k.id) == None && !s.bootstrap
    requires k.id !in s.tasks && HashNow(s.disk, k) != ent.hash && ent.hash != "" && env.saved && env.armOk
    requires 0 in s.approvers && s.approvers[0] == Recording(k.id, ent, "", read)
    ensures
      var s' := Exec(c, s0, ls);
      && k.id in s'.pending && s'.pending[k.id].hash == HashNow(s.disk, k)
      && k.id in s'.armed && Approved(s'.tasks, k.id, ent.hash)
  {
    var ls1, gen := AdmitRun(c, s, k, env);
    ExecAppend(c, s0, ls0, ls1);
    var s1 := Exec(c, s0, ls0 + ls1);
    assert s1.approvers[0] == Recording(k.id, ent, "", read);
    var ls2 := ls0 + ls1 + [Approve(0, env)];
    OneStep(c, s0, ls0 + ls1, Approve(0, env));
    var s2 := Exec(c, s0, ls2);
    assert s2 == Grant(s1, 0, env, k.id, ent, "", read);
    ls := ls2 + [Approve(0, env)];
    OneStep(c, s0, ls2, Approve(0, env));
    assert Exec(c, s0, ls) == ArmApproved(s2, 0, env, k.id, ent, read);
  }

  // An Admit that saw the lock before an approval reached it publishes the
  // version anyway: approved does not imply not pending. The task is vetoed until
  // the next Admit, which finds the hash in the lock.
  lemma PendingThoughApproved(c: Config, k: Task, env: Env) returns (ls: seq<Label>)
    requires Gated(c, k) && env.saved && env.armOk
    ensures
      var s := Exec(c, Start(c), ls);
      && s.recon == Idle && HashNow(s.disk, k) == c.disk[k]
      && k.id in s.pending && s.pending[k.id].hash == c.disk[k] && Approved(s.tasks, k.id, c.disk[k])
      && !FireAllows(c, s.disk, TablesOf(s), k.id)
      && FireAllows(c, s.disk, AfterAdmit(c, TablesOf(s), k, c.disk[k], env, 0), k.id)
  {
    var s0 := Start(c);
    var h := c.disk[k];
    var ls1, gen1 := AdmitRun(c, s0, k, env);
    var s1 := Exec(c, s0, ls1);
    var ent := s1.pending[k.id];
    assert ent.hash == h && k.id !in s1.tasks && s1.approvers == map[];
    var ls2 := ls1 + [StartApprove(0, k.id, "")];
    OneStep(c, s0, ls1, StartApprove(0, k.id, ""));
    var s2 := Exec(c, s0, ls2);
    var ls3, s3 := ReachesPend(c, s0, ls2, s2, k, env);
    var ls4, s4 := ApprovesUnseen(c, s0, ls3, s3, k.id, ent, |s1.hist|, env);
    ls := PublishesLate(c, s0, ls4, s4, k, h, env);
    var s := Exec(c, s0, ls);
    AdmitAndFireAgree(c, s.disk, TablesOf(s), k, env, 0);
  }

  // An approval that read the entry before Forget and records after it puts the
  // record back: the task, added again with the same content, is armed without a
  // new review.
  lemma ForgottenYetRecorded(c: Config, k: Task, env: Env) returns (ls: seq<Label>)
    requires Gated(c, k) && env.saved && env.armOk
    ensures
      var s := Exec(c, Start(c), ls);
      && s.recon == Idle && HashNow(s.disk, k) == c.disk[k]
      && k.id !in s.pending && k.id !in s.admitted && Approved(s.tasks, k.id, c.disk[k])
      && Arms(c, TablesOf(s), k.id, c.disk[k])
      && FireAllows(c, s.disk, AfterAdmit(c, TablesOf(s), k, c.disk[k], env, 0), k.id)
  {
    var s0 := Start(c);
    var ls1, gen1 := AdmitRun(c, s0, k, env);
    var s1 := Exec(c, s0, ls1);
    var ent := s1.pending[k.id];
    assert ent.hash == c.disk[k] && s1.approvers == map[];
    var ls2 := ls1 + [StartApprove(0, k.id, "")];
    OneStep(c, s0, ls1, StartApprove(0, k.id, ""));
    var s2 := Exec(c, s0, ls2);
    var ls3 := ForgetRun(c, s2, k.id, env);
    ExecAppend(c, s0, ls2, ls3);
    var s3 := Exec(c, s0, ls2 + ls3);
    assert s3.approvers[0] == Recording(k.id, ent, "", |s1.hist|);
    OneStep(c, s0, ls2 + ls3, Approve(0, env));
    ls := ls2 + ls3 + [Approve(0, env)];
    var s := Grant(s3, 0, env, k.id, ent, "", |s1.hist|);
    assert Exec(c, s0, ls) == s;
    AdmitAndFireAgree(c, s.disk, TablesOf(s), k, env, 0);
  }

  lemma ForgetRun(c: Config, s: State, id: string, env: Env) returns (ls: seq<Label>)
    requires s.recon == Idle
    ensures Settled(s, Exec(c, s, ls), AfterForget(TablesOf(s), id))
  {
    var n := StepsOfForget(c, s, id, env);
    var rest := seq(n, _ => Recon(env));
    ls := [StartForget(id)] + rest;
    assert ls[1..] == rest;
  }

  lemma ReachesPend(c: Config, s0: State, ls0: seq<Label>, s: State, k: Task, env: Env)
    returns (ls: seq<Label>, s': State)
    requires s == Exec(c, s0, ls0) && s.recon == Idle && PolicyArm(c, k.id) == None
    requires !s.bootstrap && !Approved(s.tasks, k.id, HashNow(s.disk, k))
    ensures s' == Exec(c, s0, ls) && s'.recon.Pend? && s'.recon.k == k && s'.recon.h == HashNow(s.disk, k)
    ensures s' == s.(recon := s'.recon, hist := s'.hist, admitted := s.admitted[k.id := k])
  {
    var h, obs := HashNow(s.disk, k), |s.hist|;
    OneStep(c, s0, ls0, StartAdmit(k));
    var ls1 := ls0 + [StartAdmit(k)];
    var s1 := Exec(c, s0, ls1);
    OneStep(c, s0, ls1, Recon(env));
    var ls2 := ls1 + [Recon(env)];
    var s2 := Retain(s1, k, h, obs);
    assert Exec(c, s0, ls2) == s2;
    ls, s' := UnapprovedPends(c, s0, ls2, s2, k, h, obs, env);
  }

  lemma UnapprovedPends(c: Config, s0: State, ls0: seq<Label>, s: State, k: Task, h: string, obs: nat, env: Env)
    returns (ls: seq<Label>, s': State)
    requires s == Exec(c, s0, ls0) && s.recon == Deciding(k, h, obs) && PolicyArm(c, k.id) == None
    requires !s.bootstrap && !Approved(s.tasks, k.id, h)
    ensures s' == Exec(c, s0, ls) == s.(recon := Pend(k, h, obs))
  {
    OneStep(c, s0, ls0, Recon(env));
    var ls1 := ls0 + [Recon(env)];
    var s1 := Decide(c, s, k, h, obs);
    assert Exec(c, s0, ls1) == s1;
    OneStep(c, s0, ls1, Recon(env));
    ls := ls1 + [Recon(env)];
    s' := LookAtWindow(s1, k, h, obs);
  }

  lemma ApprovesUnseen(c: Config, s0: State, ls0: seq<Label>, s: State, id: string, ent: Entry, read: nat, env: Env)
    returns (ls: seq<Label>, s': State)
    requires s == Exec(c, s0, ls0) && env.saved && env.armOk
    requires 0 in s.approvers && s.approvers[0] == Recording(id, ent, "", read) && ent.hash != ""
    ensures s' == Exec(c, s0, ls) && s'.recon == s.recon && s'.disk == s.disk && s'.bootstrap == s.bootstrap
    ensures s'.admitted == s.admitted && Approved(s'.tasks, id, ent.hash)
  {
    var s1 := Grant(s, 0, env, id, ent, "", read);
    var ls1 := ls0 + [Approve(0, env)];
    OneStep(c, s0, ls0, Approve(0, env));
    assert Exec(c, s0, ls1) == s1;
    var s2 := ArmApproved(s1, 0, env, id, ent, read);
    var ls2 := ls1 + [Approve(0, env)];
    OneStep(c, s0, ls1, Approve(0, env));
    assert Exec(c, s0, ls2) == s2;
    OneStep(c, s0, ls2, Approve(0, env));
    s' := ClearsUnseen(c, s2, id, ent, read, env);
    ls := ls2 + [Approve(0, env)];
  }

  lemma ClearsUnseen(c: Config, s: State, id: string, ent: Entry, read: nat, env: Env) returns (s': State)
    requires 0 in s.approvers && s.approvers[0] == Clearing(id, ent, read)
    ensures s' == Next(c, s, Approve(0, env)) && s'.recon == s.recon && s'.disk == s.disk
    ensures s'.bootstrap == s.bootstrap && s'.admitted == s.admitted && s'.tasks == s.tasks
  {
    s' := Clear(s, 0, id, ent, read);
    if id in s.pending && s.pending[id].hash == ent.hash {} else {}
  }

  lemma PublishesLate(c: Config, s0: State, ls0: seq<Label>, s: State, k: Task, h: string, env: Env)
    returns (ls: seq<Label>)
    requires s == Exec(c, s0, ls0) && s.recon.Pend? && s.recon.k == k && s.recon.h == h
    ensures
      var s' := Exec(c, s0, ls);
      && Settled(s, s', TablesOf(s').(tasks := s.tasks, admitted := s.admitted, bootstrap := s.bootstrap))
      && k.id in s'.pending && s'.pending[k.id].hash == h
  {
    var tr := FromPend(c, s, env);
    WalkIsRun(c, env, tr);
    var rest := seq(|tr| - 1, _ => Recon(env));
    ExecAppend(c, s0, ls0, rest);
    ls := ls0 + rest;
  }
}
