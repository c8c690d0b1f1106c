// Admit, approve, Forget and FireGuard when nothing interleaves: what each call
// does to the gate's tables, and that the small-step system does exactly that.
module GateSequential {
  import opened Records
  import opened TaskIds
  import opened GateModel

  // Everything the four calls read or write, apart from task directories.
  datatype Tables = Tables(
    tasks: RecordMap,
    pending: map<string, Entry>,
    admitted: map<string, Task>,
    bootstrap: bool,
    armed: map<string, Task>)

  function TablesOf(s: State): Tables {
    Tables(s.tasks, s.pending, s.admitted, s.bootstrap, s.armed)
  }

  // The auto-approve arm Admit takes at hash h, if any.
  function AutoArm(c: Config, g: Tables, id: string, h: string): Option<By> {
    if PolicyArm(c, id).Some? then PolicyArm(c, id)
    else if !Approved(g.tasks, id, h) && g.bootstrap then Some(Bootstrap)
    else None
  }

  // Admit arms unless no arm takes the task and the lock does not hold the hash.
  predicate Arms(c: Config, g: Tables, id: string, h: string) {
    AutoArm(c, g, id, h).Some? || Approved(g.tasks, id, h)
  }

  function NewEntry(c: Config, g: Tables, k: Task, h: string, env: Env, gen: nat): Entry {
    Entry(k, h, env.commit, env.remote, if k.id in g.tasks then g.tasks[k.id].commit else "",
          ResolvedEnabled(c, k), gen)
  }

  function Armed(g: Tables, k: Task, env: Env): map<string, Task> {
    if env.armOk then g.armed[k.id := k] else g.armed
  }

  // The tables after OnRegister(k) when k hashes to h.
  function AfterAdmit(c: Config, g: Tables, k: Task, h: string, env: Env, gen: nat): Tables {
    if Arms(c, g, k.id, h) then
      var auto := AutoArm(c, g, k.id, h);
      var commit := if Approved(g.tasks, k.id, h) then "" else env.commit;
      Tables(
        if auto.Some? && h != "" then Recorded(g.tasks, k.id, Record(h, env.at, auto.value, commit)) else g.tasks,
        g.pending - {k.id}, g.admitted[k.id := k], g.bootstrap, Armed(g, k, env))
    else
      Tables(g.tasks, g.pending[k.id := NewEntry(c, g, k, h, env, gen)], g.admitted[k.id := k], g.bootstrap,
             g.armed - {k.id})
  }

  // Whether Admit calls the notification hook.
  predicate Notifies(c: Config, g: Tables, k: Task, h: string) {
    && !Arms(c, g, k.id, h)
    && !(k.id in g.pending && g.pending[k.id].SameVersion(h, ResolvedEnabled(c, k)))
  }

  // ---- The same, in the fields of the tables ----------------------------------

  // Admit arms a task for its source or name, with the gate off, with this very hash
  // recorded, or while the bootstrap window is open.
  lemma ArmsExactly(c: Config, g: Tables, id: string, h: string)
    ensures Arms(c, g, id, h) <==>
      || (SourceOf(id) == "buildin" && !c.builtinPinned)
      || id in c.trustedTasks || SourceOf(id) in c.trustedSources || !c.enabled
      || (h != "" && id in g.tasks && g.tasks[id].hash == h)
      || g.bootstrap
  {
  }

  // The hook is called for a task that is not armed unless it is pending already with
  // this very hash and the enabled flag it has now; that flag is the one the preview
  // gives the task, if the preview changes it.
  lemma NotifiesExactly(c: Config, g: Tables, k: Task, h: string)
    ensures Notifies(c, g, k, h) <==>
      && !Arms(c, g, k.id, h)
      && (k.id !in g.pending || g.pending[k.id].hash != h
          || g.pending[k.id].enabled != (if k in c.preview then c.preview[k] else k.enabled))
  {
  }

  // What each table holds after Admit.
  lemma AdmitExactly(c: Config, g: Tables, k: Task, h: string, env: Env, gen: nat)
    ensures
      var g' := AfterAdmit(c, g, k, h, env, gen);
      var base := if k.id in g.tasks then g.tasks[k.id].commit else "";
      var known := h != "" && k.id in g.tasks && g.tasks[k.id].hash == h;
      && g'.bootstrap == g.bootstrap && g'.admitted == g.admitted[k.id := k]
      && (Arms(c, g, k.id, h) ==>
            && g'.pending == g.pending - {k.id}
            && g'.armed == (if env.armOk then g.armed[k.id := k] else g.armed)
            && (h == "" || known ==> g'.tasks == g.tasks)
            && (h != "" && !known ==>
                  exists via :: g'.tasks == g.tasks[k.id := Record(h, env.at, via, env.commit)]
                    && ViaOf(c, k.id, via)))
      && (!Arms(c, g, k.id, h) ==>
            && g'.tasks == g.tasks && g'.armed == g.armed - {k.id}
            && g'.pending == g.pending[k.id := Entry(k, h, env.commit, env.remote, base,
                 if k in c.preview then c.preview[k] else k.enabled, gen)])
  {
    if Arms(c, g, k.id, h) && h != "" && !(k.id in g.tasks && g.tasks[k.id].hash == h) {
      var via := AutoArm(c, g, k.id, h).value;
      assert ViaOf(c, k.id, via);
    }
  }

  // The origin an auto-approve arm records: the first of these that applies.
  predicate ViaOf(c: Config, id: string, via: By) {
    if SourceOf(id) == "buildin" && !c.builtinPinned then via == Builtin
    else if id in c.trustedTasks then via == TrustedTask
    else if SourceOf(id) in c.trustedSources then via == TrustedSource
    else if !c.enabled then via == GateDisabled
    else via == Bootstrap
  }

  datatype Outcome = NotPending | NoHash | HashMismatch | RecordFailed | ArmFailed | Done

  function ApproveOutcome(g: Tables, id: string, want: string, env: Env): Outcome {
    if id !in g.pending then NotPending
    else if g.pending[id].hash == "" then NoHash
    else if want != "" && g.pending[id].hash != want then HashMismatch
    else if !env.saved && !Approved(g.tasks, id, g.pending[id].hash) then RecordFailed
    else if !env.armOk then ArmFailed
    else Done
  }

  function AfterApprove(g: Tables, id: string, want: string, env: Env): Tables {
    var o := ApproveOutcome(g, id, want, env);
    if o.NotPending? || o.NoHash? || o.HashMismatch? then g
    else
      var ent := g.pending[id];
      var via := if want == "" then Manual else TokenLink;
      var g' := g.(tasks := Recorded(g.tasks, id, Record(ent.hash, env.at, via, ent.commit)));
      if o == Done then g'.(armed := g.armed[id := ent.task], pending := g.pending - {id}) else g'
  }

  function AfterForget(g: Tables, id: string): Tables {
    Tables(Removed(g.tasks, id), g.pending - {id}, g.admitted - {id}, g.bootstrap, g.armed - {id})
  }

  // Which refusal an approve call gives, and what each outcome leaves behind.
  lemma ApproveExactly(g: Tables, id: string, want: string, env: Env)
    ensures
      var o, g' := ApproveOutcome(g, id, want, env), AfterApprove(g, id, want, env);
      && (o == NotPending <==> id !in g.pending)
      && (o == NoHash <==> id in g.pending && g.pending[id].hash == "")
      && (o == HashMismatch <==>
            id in g.pending && g.pending[id].hash != "" && want != "" && want != g.pending[id].hash)
      && (o.NotPending? || o.NoHash? || o.HashMismatch? ==> g' == g)
      && (!o.NotPending? && !o.NoHash? && !o.HashMismatch? ==>
            var ent := g.pending[id];
            var known := id in g.tasks && g.tasks[id].hash == ent.hash;
            var via := if want == "" then Manual else TokenLink;
            && (o == RecordFailed <==> !known && !env.saved)
            && (o == ArmFailed <==> (known || env.saved) && !env.armOk)
            && g'.tasks == (if known then g.tasks else g.tasks[id := Record(ent.hash, env.at, via, ent.commit)])
            && g'.pending == (if o == Done then g.pending - {id} else g.pending)
            && g'.armed == (if o == Done then g.armed[id := ent.task] else g.armed)
            && g'.admitted == g.admitted && g'.bootstrap == g.bootstrap)
  {
  }

  predicate FireAllows(c: Config, disk: map<Task, string>, g: Tables, id: string) {
    && id !in g.pending
    && (Trusted(c, id)
        || (id in g.admitted && g.admitted[id] in disk && Approved(g.tasks, g.admitted[id].id, disk[g.admitted[id]])))
  }

  // A task may run when it is not pending and is either trusted or admitted with live
  // content whose hash is the one recorded for it.
  lemma FireAllowsExactly(c: Config, disk: map<Task, string>, g: Tables, id: string)
    ensures FireAllows(c, disk, g, id) <==>
      && id !in g.pending
      && (|| (SourceOf(id) == "buildin" && !c.builtinPinned)
          || id in c.trustedTasks || SourceOf(id) in c.trustedSources || !c.enabled
          || (id in g.admitted && g.admitted[id] in disk
              && var k := g.admitted[id];
                 disk[k] != "" && k.id in g.tasks && g.tasks[k.id].hash == disk[k]))
  {
  }

  // ---- The steps, run without interruption, do just that --------------------

  // Successive states while only the reconciler moves.
  ghost predicate Walk(c: Config, env: Env, tr: seq<State>) {
    tr != [] && forall i, j :: 0 <= i < j < |tr| && j == i + 1 ==> tr[j] == NextAdmit(c, tr[i], env)
  }

  function Last(tr: seq<State>): State
    requires tr != []
  {
    tr[|tr| - 1]
  }

  lemma WalkOn(c: Config, env: Env, s: State, tr: seq<State>)
    requires Walk(c, env, tr) && tr[0] == NextAdmit(c, s, env)
    ensures Walk(c, env, [s] + tr) && Last([s] + tr) == Last(tr)
  {
    var tr' := [s] + tr;
    forall i, j | 0 <= i < j < |tr'| && j == i + 1 ensures tr'[j] == NextAdmit(c, tr'[i], env) {
      if i > 0 { assert tr'[j] == tr[j - 1] && tr'[i] == tr[i - 1]; }
    }
  }

  // A walk is a run of the system.
  lemma {:induction false} WalkIsRun(c: Config, env: Env, tr: seq<State>)
    requires Walk(c, env, tr)
    ensures Exec(c, tr[0], seq(|tr| - 1, _ => Recon(env))) == Last(tr)
    decreases |tr|
  {
    if |tr| > 1 {
      var ls := seq(|tr| - 1, _ => Recon(env));
      assert ls[1..] == seq(|tr| - 2, _ => Recon(env));
      assert tr[1] == NextAdmit(c, tr[0], env);
      var rest := tr[1..];
      forall i, j | 0 <= i < j < |rest| && j == i + 1 ensures rest[j] == NextAdmit(c, rest[i], env) {
        assert rest[j] == tr[j + 1] && rest[i] == tr[i + 1];
      }
      WalkIsRun(c, env, rest);
    }
  }

  // The reconciler is done, only it moved, and it left the tables at g.
  predicate Settled(s: State, s': State, g: Tables) {
    && s'.recon == Idle && s'.disk == s.disk && s'.approvers == s.approvers && s'.fires == s.fires
    && TablesOf(s') == g
  }

  lemma FromArming(c: Config, s: State, env: Env) returns (tr: seq<State>)
    requires s.recon.Arming?
    ensures Walk(c, env, tr) && tr[0] == s
    ensures Settled(s, Last(tr), TablesOf(s).(armed := Armed(TablesOf(s), s.recon.k, env)))
  {
    tr := [s, NextAdmit(c, s, env)];
  }

  // Withdraw, apart from its event.
  lemma WithdrawMoves(s: State, id: string, cause: nat, pc: ReconPc)
    ensures
      var s1 := Withdraw(s, id, cause, pc);
      s1 == s.(pending := s.pending - {id}, recon := pc, hist := s1.hist)
  {
    if id !in s.pending { assert s.pending - {id} == s.pending; }
  }

  lemma FromApproving(c: Config, s: State, env: Env) returns (tr: seq<State>)
    requires s.recon.Approving?
    ensures Walk(c, env, tr) && tr[0] == s
    ensures Settled(s, Last(tr), TablesOf(s).(armed := Armed(TablesOf(s), s.recon.k, env),
                                              pending := s.pending - {s.recon.k.id}))
  {
    var tr1 := FromWithdrawn(c, s, s.recon.k, s.recon.cause, env);
    WalkOn(c, env, s, tr1);
    tr := [s] + tr1;
  }

  lemma FromWithdrawn(c: Config, s: State, k: Task, cause: nat, env: Env) returns (tr: seq<State>)
    ensures Walk(c, env, tr) && tr[0] == Withdraw(s, k.id, cause, Arming(k))
    ensures Settled(s, Last(tr), TablesOf(s).(armed := Armed(TablesOf(s), k, env), pending := s.pending - {k.id}))
  {
    WithdrawMoves(s, k.id, cause, Arming(k));
    tr := FromArming(c, Withdraw(s, k.id, cause, Arming(k)), env);
  }

  lemma FromAutoCleared(c: Config, s: State, env: Env) returns (tr: seq<State>)
    requires s.recon.AutoCleared?
    ensures Walk(c, env, tr) && tr[0] == s
    ensures
      var r := Record(s.recon.h, env.at, s.recon.via, if s.recon.known then "" else env.commit);
      Settled(s, Last(tr), TablesOf(s).(armed := Armed(TablesOf(s), s.recon.k, env),
          tasks := if s.recon.h == "" then s.tasks else Recorded(s.tasks, s.recon.k.id, r)))
  {
    var tr1;
    if s.recon.h == "" { tr1 := FromSkipped(c, s, env); } else { tr1 := FromRecorded(c, s, env); }
    WalkOn(c, env, s, tr1);
    tr := [s] + tr1;
  }

  lemma FromSkipped(c: Config, s: State, env: Env) returns (tr: seq<State>)
    requires s.recon.AutoCleared? && s.recon.h == ""
    ensures Walk(c, env, tr) && tr[0] == NextAdmit(c, s, env)
    ensures Settled(s, Last(tr), TablesOf(s).(armed := Armed(TablesOf(s), s.recon.k, env)))
  {
    SkipStep(c, s, env);
    tr := FromArming(c, s.(recon := Arming(s.recon.k)), env);
  }

  lemma FromRecorded(c: Config, s: State, env: Env) returns (tr: seq<State>)
    requires s.recon.AutoCleared? && s.recon.h != ""
    ensures Walk(c, env, tr) && tr[0] == NextAdmit(c, s, env)
    ensures
      var r := Record(s.recon.h, env.at, s.recon.via, if s.recon.known then "" else env.commit);
      Settled(s, Last(tr), TablesOf(s).(armed := Armed(TablesOf(s), s.recon.k, env),
                                        tasks := Recorded(s.tasks, s.recon.k.id, r)))
  {
    RecordStep(c, s, env);
    tr := FromArming(c, NextAdmit(c, s, env), env);
  }

  lemma SkipStep(c: Config, s: State, env: Env)
    requires s.recon.AutoCleared? && s.recon.h == ""
    ensures NextAdmit(c, s, env) == s.(recon := Arming(s.recon.k))
  {
  }

  lemma RecordStep(c: Config, s: State, env: Env)
    requires s.recon.AutoCleared? && s.recon.h != ""
    ensures
      var r := Record(s.recon.h, env.at, s.recon.via, if s.recon.known then "" else env.commit);
      NextAdmit(c, s, env) ==
        s.(hist := s.hist + [AutoGranted(s.recon.k.id, s.recon.h, s.recon.via, s.recon.dec)],
           tasks := Recorded(s.tasks, s.recon.k.id, r),
           recon := Arming(s.recon.k))
  {
  }

  lemma FromAutoChecked(c: Config, s: State, env: Env) returns (tr: seq<State>)
    requires s.recon.AutoChecked?
    ensures Walk(c, env, tr) && tr[0] == s
    ensures
      var r := Record(s.recon.h, env.at, s.recon.via, if s.recon.known then "" else env.commit);
      Settled(s, Last(tr), TablesOf(s).(armed := Armed(TablesOf(s), s.recon.k, env),
          tasks := if s.recon.h == "" then s.tasks else Recorded(s.tasks, s.recon.k.id, r),
          pending := s.pending - {s.recon.k.id}))
  {
    var AutoChecked(k, h, via, dec, known) := s.recon;
    var tr1 := FromCleared(c, s, k, h, via, dec, known, env);
    WalkOn(c, env, s, tr1);
    tr := [s] + tr1;
  }

  lemma FromCleared(c: Config, s: State, k: Task, h: string, via: By, dec: nat, known: bool, env: Env)
    returns (tr: seq<State>)
    ensures Walk(c, env, tr) && tr[0] == Withdraw(s, k.id, dec, AutoCleared(k, h, via, dec, known))
    ensures
      var r := Record(h, env.at, via, if known then "" else env.commit);
      Settled(s, Last(tr), TablesOf(s).(armed := Armed(TablesOf(s), k, env),
          tasks := if h == "" then s.tasks else Recorded(s.tasks, k.id, r), pending := s.pending - {k.id}))
  {
    WithdrawMoves(s, k.id, dec, AutoCleared(k, h, via, dec, known));
    tr := FromAutoCleared(c, Withdraw(s, k.id, dec, AutoCleared(k, h, via, dec, known)), env);
  }

  lemma FromAuto(c: Config, s: State, env: Env) returns (tr: seq<State>)
    requires s.recon.Auto?
    ensures Walk(c, env, tr) && tr[0] == s
    ensures
      var id, h := s.recon.k.id, s.recon.h;
      var r := Record(h, env.at, s.recon.via, if Approved(s.tasks, id, h) then "" else env.commit);
      Settled(s, Last(tr), TablesOf(s).(armed := Armed(TablesOf(s), s.recon.k, env),
          tasks := if h == "" then s.tasks else Recorded(s.tasks, id, r), pending := s.pending - {id}))
  {
    var s1 := NextAdmit(c, s, env);
    var tr1 := FromAutoChecked(c, s1, env);
    WalkOn(c, env, s, tr1);
    tr := [s] + tr1;
  }

  lemma FromHeld(c: Config, s: State, env: Env) returns (tr: seq<State>)
    requires s.recon.Held?
    ensures Walk(c, env, tr) && tr[0] == s
    ensures Settled(s, Last(tr), TablesOf(s).(armed := s.armed - {s.recon.ent.task.id}))
  {
    HeldStep(c, s, env);
    tr := [s, NextAdmit(c, s, env)];
  }

  lemma HeldStep(c: Config, s: State, env: Env)
    requires s.recon.Held?
    ensures NextAdmit(c, s, env) == (if s.recon.notify then Log(s, Notified(s.recon.ent)) else s)
      .(armed := s.armed - {s.recon.ent.task.id}, recon := Idle)
  {
  }

  lemma FromBased(c: Config, s: State, env: Env) returns (tr: seq<State>)
    requires s.recon.Based?
    ensures Walk(c, env, tr) && tr[0] == s
    ensures
      var Based(k, h, _, _, _, commit, remote, base) := s.recon;
      var ent := Entry(k, h, commit, remote, base, ResolvedEnabled(c, k), |s.hist|);
      Settled(s, Last(tr), TablesOf(s).(pending := s.pending[k.id := ent], armed := s.armed - {k.id}))
  {
    var s1 := NextAdmit(c, s, env);
    var tr1 := FromHeld(c, s1, env);
    WalkOn(c, env, s, tr1);
    tr := [s] + tr1;
  }

  lemma FromCompared(c: Config, s: State, env: Env) returns (tr: seq<State>)
    requires s.recon.Compared?
    ensures Walk(c, env, tr) && tr[0] == s
    ensures
      var k, h := s.recon.k, s.recon.h;
      Settled(s, Last(tr), TablesOf(s).(armed := s.armed - {k.id},
          pending := s.pending[k.id := NewEntry(c, TablesOf(s), k, h, env, |s.hist|)]))
  {
    var tr1 := FromBased(c, NextAdmit(c, s, env), env);
    WalkOn(c, env, s, tr1);
    tr := [s] + tr1;
  }

  lemma FromPend(c: Config, s: State, env: Env) returns (tr: seq<State>)
    requires s.recon.Pend?
    ensures Walk(c, env, tr) && tr[0] == s
    ensures
      var k, h := s.recon.k, s.recon.h;
      Settled(s, Last(tr), TablesOf(s).(armed := s.armed - {k.id},
          pending := s.pending[k.id := NewEntry(c, TablesOf(s), k, h, env, |s.hist|)]))
  {
    var tr1 := FromCompared(c, NextAdmit(c, s, env), env);
    WalkOn(c, env, s, tr1);
    tr := [s] + tr1;
  }

  lemma FromWindow(c: Config, s: State, env: Env) returns (tr: seq<State>, gen: nat)
    requires s.recon.Window? && PolicyArm(c, s.recon.k.id) == None && !Approved(s.tasks, s.recon.k.id, s.recon.h)
    requires s.recon.k.id in s.admitted && s.admitted[s.recon.k.id] == s.recon.k
    ensures Walk(c, env, tr) && tr[0] == s
    ensures Settled(s, Last(tr), AfterAdmit(c, TablesOf(s), s.recon.k, s.recon.h, env, gen))
  {
    gen := |s.hist|;
    var s1 := NextAdmit(c, s, env);
    assert s.admitted == s.admitted[s.recon.k.id := s.recon.k];
    var tr1;
    if s.bootstrap { tr1 := FromAuto(c, s1, env); } else { tr1 := FromPend(c, s1, env); }
    WalkOn(c, env, s, tr1);
    tr := [s] + tr1;
  }

  lemma FromDeciding(c: Config, s: State, env: Env) returns (tr: seq<State>, gen: nat)
    requires s.recon.Deciding?
    requires s.recon.k.id in s.admitted && s.admitted[s.recon.k.id] == s.recon.k
    ensures Walk(c, env, tr) && tr[0] == s
    ensures Settled(s, Last(tr), AfterAdmit(c, TablesOf(s), s.recon.k, s.recon.h, env, gen))
  {
    var tr1;
    tr1, gen := FromDecided(c, s, NextAdmit(c, s, env), env);
    WalkOn(c, env, s, tr1);
    tr := [s] + tr1;
  }

  lemma FromDecided(c: Config, s: State, s1: State, env: Env) returns (tr: seq<State>, gen: nat)
    requires s.recon.Deciding? && s1 == NextAdmit(c, s, env)
    requires s.recon.k.id in s.admitted && s.admitted[s.recon.k.id] == s.recon.k
    ensures Walk(c, env, tr) && tr[0] == s1
    ensures Settled(s, Last(tr), AfterAdmit(c, TablesOf(s), s.recon.k, s.recon.h, env, gen))
  {
    var k, h := s.recon.k, s.recon.h;
    gen := 0;
    if PolicyArm(c, k.id).Some? { tr := FromPolicy(c, s, env); }
    else if Approved(s.tasks, k.id, h) { tr := FromApproved(c, s, env); }
    else { UnapprovedStep(c, s, env); tr, gen := FromWindow(c, s1, env); }
  }

  lemma UnapprovedStep(c: Config, s: State, env: Env)
    requires s.recon.Deciding? && PolicyArm(c, s.recon.k.id) == None && !Approved(s.tasks, s.recon.k.id, s.recon.h)
    ensures NextAdmit(c, s, env) == s.(recon := Window(s.recon.k, s.recon.h, s.recon.obs))
  {
  }

  lemma FromApproved(c: Config, s: State, env: Env) returns (tr: seq<State>)
    requires s.recon.Deciding? && PolicyArm(c, s.recon.k.id) == None && Approved(s.tasks, s.recon.k.id, s.recon.h)
    requires s.recon.k.id in s.admitted && s.admitted[s.recon.k.id] == s.recon.k
    ensures Walk(c, env, tr) && tr[0] == NextAdmit(c, s, env)
    ensures Settled(s, Last(tr), AfterAdmit(c, TablesOf(s), s.recon.k, s.recon.h, env, 0))
  {
    assert s.admitted == s.admitted[s.recon.k.id := s.recon.k];
    tr := FromApproving(c, NextAdmit(c, s, env), env);
  }

  lemma PolicyStep(c: Config, s: State, env: Env)
    requires s.recon.Deciding? && PolicyArm(c, s.recon.k.id).Some?
    ensures
      var Deciding(k, h, obs) := s.recon;
      var via := PolicyArm(c, k.id).value;
      NextAdmit(c, s, env) == s.(hist := s.hist + [Decided(k.id, h, via, obs)], recon := Auto(k, h, via, |s.hist|))
  {
  }

  lemma FromPolicy(c: Config, s: State, env: Env) returns (tr: seq<State>)
    requires s.recon.Deciding? && PolicyArm(c, s.recon.k.id).Some?
    requires s.recon.k.id in s.admitted && s.admitted[s.recon.k.id] == s.recon.k
    ensures Walk(c, env, tr) && tr[0] == NextAdmit(c, s, env)
    ensures Settled(s, Last(tr), AfterAdmit(c, TablesOf(s), s.recon.k, s.recon.h, env, 0))
  {
    PolicyStep(c, s, env);
    assert s.admitted == s.admitted[s.recon.k.id := s.recon.k];
    tr := FromAuto(c, NextAdmit(c, s, env), env);
  }

  // A whole Admit, with the disarm OnRegister adds.
  lemma StepsOfAdmit(c: Config, s: State, k: Task, env: Env) returns (n: nat, gen: nat)
    requires s.recon == Idle
    ensures
      var s' := Exec(c, Next(c, s, StartAdmit(k)), seq(n, _ => Recon(env)));
      Settled(s, s', AfterAdmit(c, TablesOf(s), k, HashNow(s.disk, k), env, gen))
  {
    var s0 := Next(c, s, StartAdmit(k));
    var s1 := NextAdmit(c, s0, env);
    var tr1;
    tr1, gen := FromDeciding(c, s1, env);
    WalkOn(c, env, s0, tr1);
    WalkIsRun(c, env, [s0] + tr1);
    n := |tr1|;
    AdmitRetainsFirst(c, TablesOf(s), k, HashNow(s.disk, k), env, gen);
  }

  // Whether the handle is retained before or with the rest makes no difference.
  lemma AdmitRetainsFirst(c: Config, g: Tables, k: Task, h: string, env: Env, gen: nat)
    ensures AfterAdmit(c, g.(admitted := g.admitted[k.id := k]), k, h, env, gen) == AfterAdmit(c, g, k, h, env, gen)
  {
    var a := g.admitted[k.id := k];
    assert a[k.id := k] == a;
  }

  lemma StepsOfForget(c: Config, s: State, id: string, env: Env) returns (n: nat)
    requires s.recon == Idle
    ensures
      var s' := Exec(c, Next(c, s, StartForget(id)), seq(n, _ => Recon(env)));
      Settled(s, s', AfterForget(TablesOf(s), id))
  {
    var s0 := Next(c, s, StartForget(id));
    var tr := FromForgetting(c, s0, env);
    WalkIsRun(c, env, tr);
    n := |tr| - 1;
  }

  lemma FromForgetting(c: Config, s: State, env: Env) returns (tr: seq<State>)
    requires s.recon.Forgetting?
    ensures Walk(c, env, tr) && tr[0] == s
    ensures
      var id := s.recon.id;
      Settled(s, Last(tr), TablesOf(s).(pending := s.pending - {id},
                                        admitted := s.admitted - {id},
                                        tasks := Removed(s.tasks, id)))
  {
    var Forgetting(id, cause) := s.recon;
    WithdrawMoves(s, id, cause, Forgotten(id));
    var tr1 := FromForgotten(c, Withdraw(s, id, cause, Forgotten(id)), id, env);
    WalkOn(c, env, s, tr1);
    tr := [s] + tr1;
  }

  lemma FromForgotten(c: Config, s: State, id: string, env: Env) returns (tr: seq<State>)
    requires s.recon == Forgotten(id)
    ensures Walk(c, env, tr) && tr[0] == s
    ensures Settled(s, Last(tr), TablesOf(s).(admitted := s.admitted - {id}, tasks := Removed(s.tasks, id)))
  {
    var s1 := DropHandle(s, id);
    var s2 := Unrecord(s1, id);
    assert NextAdmit(c, s1, env) == s2;
    WalkOn(c, env, s1, [s2]);
    WalkOn(c, env, s, [s1] + [s2]);
    tr := [s] + ([s1] + [s2]);
  }

  // An uninterrupted approve call; one that ends early leaves its last steps idle.
  lemma StepsOfApprove(c: Config, s: State, t: nat, id: string, want: string, env: Env)
    requires t !in s.approvers
    ensures
      var s' := NextApprove(NextApprove(NextApprove(BeginApprove(s, t, id, want), t, env), t, env), t, env);
      TablesOf(s') == AfterApprove(TablesOf(s), id, want, env) && t !in s'.approvers
  {
    var o := ApproveOutcome(TablesOf(s), id, want, env);
    if o.NotPending? || o.NoHash? || o.HashMismatch? {
      assert BeginApprove(s, t, id, want) == s;
      assert NextApprove(s, t, env) == s;
    } else {
      var s1 := BeginApprove(s, t, id, want);
      assert TablesOf(s1) == TablesOf(s) && s1.approvers[t] == Recording(id, s.pending[id], want, |s.hist|);
      assert NextApprove(s1, t, env) == Grant(s1, t, env, id, s.pending[id], want, |s.hist|);
      ApproveGranting(c, s1, t, id, want, s.pending[id], |s.hist|, env);
    }
  }

  lemma ApproveGranting(c: Config, s: State, t: nat, id: string, want: string, ent: Entry, read: nat, env: Env)
    requires t in s.approvers && s.approvers[t] == Recording(id, ent, want, read)
    requires id in s.pending && s.pending[id] == ent
    ensures
      var s' := NextApprove(NextApprove(Grant(s, t, env, id, ent, want, read), t, env), t, env);
      var via := if want == "" then Manual else TokenLink;
      var g := TablesOf(s).(tasks := Recorded(s.tasks, id, Record(ent.hash, env.at, via, ent.commit)));
      && t !in s'.approvers
      && TablesOf(s') == if (Approved(s.tasks, id, ent.hash) || env.saved) && env.armOk
           then g.(armed := s.armed[id := ent.task], pending := s.pending - {id}) else g
  {
    if Approved(s.tasks, id, ent.hash) || env.saved {
      ApproveArming(Grant(s, t, env, id, ent, want, read), t, id, ent, read, env);
    }
  }

  lemma ApproveArming(s: State, t: nat, id: string, ent: Entry, read: nat, env: Env)
    requires t in s.approvers && s.approvers[t] == ArmingApproved(id, ent, read)
    requires id in s.pending && s.pending[id] == ent
    ensures
      var s' := NextApprove(ArmApproved(s, t, env, id, ent, read), t, env);
      && t !in s'.approvers
      && TablesOf(s') == if env.armOk
           then TablesOf(s).(armed := s.armed[id := ent.task], pending := s.pending - {id})
           else TablesOf(s)
  {
  }

  // How a FireGuard call ended, if it has.
  predicate LetThrough(s: State) {
    s.hist != [] && (s.hist[|s.hist| - 1].Fired? || s.hist[|s.hist| - 1].Waved?)
  }

  predicate Unmoved(s: State, s': State, t: nat) {
    s'.fires - {t} == s.fires - {t} && TablesOf(s') == TablesOf(s) && s'.disk == s.disk
  }

  lemma FromChecking(c: Config, s: State, t: nat)
    requires t in s.fires && s.fires[t].Checking?
    ensures
      var s' := NextFire(c, s, t);
      && Unmoved(s, s', t) && t !in s'.fires
      && LetThrough(s') == Approved(s.tasks, s.fires[t].k.id, s.fires[t].live)
  {
  }

  lemma Ended(c: Config, s: State, t: nat)
    requires t !in s.fires
    ensures NextFire(c, s, t) == s
  {
  }

  lemma FromHashing(c: Config, s: State, t: nat, k: Task, began: nat, handled: nat)
    requires t in s.fires && s.fires[t] == HashingLive(k, began, handled)
    ensures
      var s' := NextFire(c, HashLive(s, t, k, began, handled), t);
      && Unmoved(s, s', t) && t !in s'.fires
      && LetThrough(s') == (k in s.disk && Approved(s.tasks, k.id, s.disk[k]))
  {
    var s1 := HashLive(s, t, k, began, handled);
    if k in s.disk { FromChecking(c, s1, t); } else { Ended(c, s1, t); }
  }

  lemma FromHandling(c: Config, s: State, t: nat, id: string, began: nat)
    requires t in s.fires && s.fires[t] == Handling(id, began)
    ensures
      var s' := NextFire(c, NextFire(c, Handle(s, t, id, began), t), t);
      && Unmoved(s, s', t) && t !in s'.fires
      && LetThrough(s') == (id in s.admitted && s.admitted[id] in s.disk
                            && Approved(s.tasks, s.admitted[id].id, s.disk[s.admitted[id]]))
  {
    var s1 := Handle(s, t, id, began);
    if id in s.admitted { FromHashing(c, s1, t, s.admitted[id], began, |s.hist|); }
    else { Ended(c, s1, t); }
  }

  lemma FromTrusting(c: Config, s: State, t: nat, id: string, began: nat)
    requires t in s.fires && s.fires[t] == Trusting(id, began)
    ensures
      var s' := NextFire(c, NextFire(c, NextFire(c, Trust(c, s, t, id, began), t), t), t);
      && Unmoved(s, s', t) && t !in s'.fires
      && LetThrough(s') == (Trusted(c, id)
            || (id in s.admitted && s.admitted[id] in s.disk
                && Approved(s.tasks, s.admitted[id].id, s.disk[s.admitted[id]])))
  {
    var s1 := Trust(c, s, t, id, began);
    if Trusted(c, id) { Ended(c, s1, t); } else { FromHandling(c, s1, t, id, began); }
  }

  lemma FromBegun(c: Config, s: State, t: nat, id: string)
    requires t !in s.fires && id !in s.pending
    ensures
      var s' := NextFire(c, NextFire(c, NextFire(c, NextFire(c, BeginFire(s, t, id), t), t), t), t);
      && Unmoved(s, s', t) && t !in s'.fires
      && LetThrough(s') == FireAllows(c, s.disk, TablesOf(s), id)
  {
    var s1 := BeginFire(s, t, id);
    assert t in s1.fires && s1.fires[t] == Trusting(id, |s.hist|) && TablesOf(s1) == TablesOf(s) && Unmoved(s, s1, t);
    FromTrusting(c, s1, t, id, |s.hist|);
  }

  // An uninterrupted FireGuard call lets the task through as FireAllows says.
  lemma StepsOfFire(c: Config, s: State, t: nat, id: string)
    requires t !in s.fires
    ensures
      var s' := NextFire(c, NextFire(c, NextFire(c, NextFire(c, BeginFire(s, t, id), t), t), t), t);
      && Unmoved(s, s', t) && t !in s'.fires
      && LetThrough(s') == FireAllows(c, s.disk, TablesOf(s), id)
  {
    if id in s.pending { Ended(c, BeginFire(s, t, id), t); } else { FromBegun(c, s, t, id); }
  }

  // ---- What the calls mean to each other ------------------------------------

  // FireGuard lets a just admitted task run exactly when Admit armed it, except
  // for an untrusted task without a computable hash, which bootstrap arms and
  // FireGuard still vetoes.
  lemma AdmitAndFireAgree(c: Config, disk: map<Task, string>, g: Tables, k: Task, env: Env, gen: nat)
    ensures
      var h := HashNow(disk, k);
      FireAllows(c, disk, AfterAdmit(c, g, k, h, env, gen), k.id) <==>
      Arms(c, g, k.id, h) && (Trusted(c, k.id) || h != "")
  {
    TrustedIsPolicyArm(c, k.id);
  }

  // Such a task there is: untrusted, without a hash, met while the window is open.
  lemma SeededWithoutHashIsVetoed(c: Config, disk: map<Task, string>, g: Tables, k: Task, env: Env, gen: nat)
    requires !Trusted(c, k.id) && k !in disk && g.bootstrap
    ensures Arms(c, g, k.id, HashNow(disk, k))
    ensures !FireAllows(c, disk, AfterAdmit(c, g, k, HashNow(disk, k), env, gen), k.id)
  {
    AdmitAndFireAgree(c, disk, g, k, env, gen);
  }

  // Approving a pending, untrusted task lets it run exactly when the call
  // succeeded and its content, by then, still hashes to the approved version.
  lemma ApprovedContentOnly(c: Config, disk: map<Task, string>, g: Tables, id: string, want: string, env: Env)
    requires id in g.pending && !Trusted(c, id) && id in g.admitted && g.admitted[id].id == id
    ensures
      FireAllows(c, disk, AfterApprove(g, id, want, env), id) <==>
      ApproveOutcome(g, id, want, env) == Done && HashNow(disk, g.admitted[id]) == g.pending[id].hash
  {
  }

  // A token-bound approval acts on no version but the one it names.
  lemma TokenBoundApproval(g: Tables, id: string, want: string, env: Env)
    requires want != ""
    ensures AfterApprove(g, id, want, env) != g ==>
      && id in g.pending && g.pending[id].hash == want
      && Approved(AfterApprove(g, id, want, env).tasks, id, want)
    ensures forall j :: j != id ==>
      var g' := AfterApprove(g, id, want, env);
      && (j in g'.tasks <==> j in g.tasks) && (j in g.tasks ==> g'.tasks[j] == g.tasks[j])
      && (j in g'.pending <==> j in g.pending) && (j in g.pending ==> g'.pending[j] == g.pending[j])
  {
  }

  // The call got as far as Record: its record is in memory, whatever it reports.
  predicate Touched(o: Outcome) {
    o.RecordFailed? || o.ArmFailed?
  }

  // The task can run once its content has been admitted.
  predicate RunsNext(c: Config, disk: map<Task, string>, g: Tables, k: Task, env: Env, gen: nat) {
    FireAllows(c, disk, AfterAdmit(c, g, k, HashNow(disk, k), env, gen), k.id)
  }

  // An approval that reports an error changes what the next Admit does with some
  // content if and only if it failed at the save or at the arm, no policy or window
  // decides instead, and the content is the version it read or else the one whose
  // record it replaced.
  lemma FailedApprovalTakesEffectExactly(c: Config, disk: map<Task, string>, g: Tables, id: string, want: string,
                                         env: Env, k: Task, env': Env, gen: nat)
    requires k.id == id && ApproveOutcome(g, id, want, env) != Done
    ensures
      var h, g' := HashNow(disk, k), AfterApprove(g, id, want, env);
      var effect :=
        && Touched(ApproveOutcome(g, id, want, env)) && PolicyArm(c, id) == None && !g.bootstrap
        && (Approved(g.tasks, id, h) <==> h != g.pending[id].hash);
      && ((Arms(c, g', id, h) <==> !Arms(c, g, id, h)) <==> effect)
      && ((RunsNext(c, disk, g', k, env', gen) <==> !RunsNext(c, disk, g, k, env', gen)) <==> effect)
  {
    AdmitAndFireAgree(c, disk, g, k, env', gen);
    AdmitAndFireAgree(c, disk, AfterApprove(g, id, want, env), k, env', gen);
    TrustedIsPolicyArm(c, id);
  }

  // So content that would have been held runs after such an approval exactly when the
  // call failed at the save or at the arm, and it is the version the call had read.
  lemma FailedApprovalReleasesExactly(c: Config, disk: map<Task, string>, g: Tables, id: string, want: string,
                                      env: Env, k: Task, env': Env, gen: nat)
    requires k.id == id && ApproveOutcome(g, id, want, env) != Done && !Arms(c, g, id, HashNow(disk, k))
    ensures
      var g' := AfterApprove(g, id, want, env);
      && (id in g.pending ==> id in g'.pending && g'.pending[id] == g.pending[id])
      && (RunsNext(c, disk, g', k, env', gen) <==>
            Touched(ApproveOutcome(g, id, want, env)) && HashNow(disk, k) == g.pending[id].hash)
  {
    AdmitAndFireAgree(c, disk, AfterApprove(g, id, want, env), k, env', gen);
    TrustedIsPolicyArm(c, id);
  }

  // A removed task starts from scratch: nothing of it is left in any table, and
  // unless trusted it cannot run, whatever its content.
  lemma ForgetClears(c: Config, disk: map<Task, string>, g: Tables, id: string)
    ensures
      var g' := AfterForget(g, id);
      && id !in g'.tasks && id !in g'.pending && id !in g'.admitted && id !in g'.armed
      && (FireAllows(c, disk, g', id) <==> Trusted(c, id))
  {
  }

  // Admitting unchanged content again changes nothing but the generation, and
  // calls no hook.
  lemma ReadmitIsQuiet(c: Config, g: Tables, k: Task, h: string, env: Env, gen: nat, env': Env, gen': nat)
    requires !Arms(c, g, k.id, h)
    ensures
      var g' := AfterAdmit(c, g, k, h, env, gen);
      && !Notifies(c, g', k, h) && !Arms(c, g', k.id, h)
      && AfterAdmit(c, g', k, h, env', gen')
         == g'.(pending := g'.pending[k.id := NewEntry(c, g, k, h, env', gen')])
  {
    var g' := AfterAdmit(c, g, k, h, env, gen);
    assert NewEntry(c, g', k, h, env', gen') == NewEntry(c, g, k, h, env', gen');
  }
}
