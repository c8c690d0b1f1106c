// What each step of the gate leaves alone: only approve calls read pending entries
// for approval and grant, each grant from a read of its own. A body that is a bare
// case split keeps the two cases in separate, small queries.
module GateFrames {
  import opened Records
  import opened GateModel

  predicate Grows(s: State, s': State) {
    s.hist <= s'.hist && |s'.hist| <= |s.hist| + 1
  }

  // No approve call moved: nothing read or granted.
  predicate Aside(s: State, s': State) {
    && Grows(s, s') && s'.approvers == s.approvers
    && (|s'.hist| > |s.hist| ==> !s'.hist[|s.hist|].Read? && !s'.hist[|s.hist|].Granted?)
  }

  // ---- The reconciler -----------------------------------------------------------

  lemma AutoDecidingAside(s: State, k: Task, h: string, obs: nat, via: By)
    ensures Aside(s, AutoDecide(s, k, h, obs, via))
  {
  }

  lemma UntrustedDecidingAside(c: Config, s: State, k: Task, h: string, obs: nat)
    requires PolicyArm(c, k.id) == None
    ensures Aside(s, Decide(c, s, k, h, obs))
  {
    if Approved(s.tasks, k.id, h) {} else {}
  }

  lemma DecidingAside(c: Config, s: State, k: Task, h: string, obs: nat)
    ensures Aside(s, Decide(c, s, k, h, obs))
  {
    if PolicyArm(c, k.id) == None {
      UntrustedDecidingAside(c, s, k, h, obs);
    } else {
      AutoDecidingAside(s, k, h, obs, PolicyArm(c, k.id).value);
    }
  }

  lemma WindowAside(s: State, k: Task, h: string, obs: nat)
    ensures Aside(s, LookAtWindow(s, k, h, obs))
  {
  }

  lemma WithdrawingAside(s: State, id: string, cause: nat, pc: ReconPc)
    ensures Aside(s, Withdraw(s, id, cause, pc))
  {
    if id in s.pending {} else {}
  }

  lemma RecordingAside(s: State, env: Env, k: Task, h: string, via: By, dec: nat, known: bool)
    ensures Aside(s, AutoRecord(s, env, k, h, via, dec, known))
  {
    if h == "" {} else {}
  }

  lemma FinishingAside(s: State, ent: Entry, notify: bool)
    ensures Aside(s, Finish(s, ent, notify))
  {
  }

  lemma DroppingAside(c: Config, s: State, env: Env)
    requires s.recon.Deciding? || s.recon.Window? || s.recon.Forgetting? || s.recon.Forgotten? || s.recon.Unrecording?
    ensures Aside(s, NextAdmit(c, s, env))
  {
    match s.recon
    case Deciding(k, h, obs) => DecidingAside(c, s, k, h, obs);
    case Window(k, h, obs) => WindowAside(s, k, h, obs);
    case Forgetting(id, cause) => WithdrawingAside(s, id, cause, Forgotten(id));
    case _ =>
  }

  lemma ArmingAside(c: Config, s: State, env: Env)
    requires s.recon.Approving? || s.recon.Auto? || s.recon.AutoChecked? || s.recon.AutoCleared? || s.recon.Arming?
    ensures Aside(s, NextAdmit(c, s, env))
  {
    match s.recon
    case Approving(k, cause) => WithdrawingAside(s, k.id, cause, Arming(k));
    case AutoChecked(k, h, via, dec, known) =>
      WithdrawingAside(s, k.id, dec, AutoCleared(k, h, via, dec, known));
    case AutoCleared(k, h, via, dec, known) => RecordingAside(s, env, k, h, via, dec, known);
    case _ =>
  }

  lemma HoldingAside(c: Config, s: State, env: Env)
    requires s.recon.Idle? || s.recon.Hashing? || s.recon.Pend? || s.recon.Compared? || s.recon.Based? || s.recon.Held?
    ensures Aside(s, NextAdmit(c, s, env))
  {
    if s.recon.Held? { FinishingAside(s, s.recon.ent, s.recon.notify); }
  }

  lemma ReconcilerAside(c: Config, s: State, env: Env)
    ensures Aside(s, NextAdmit(c, s, env))
  {
    var pc := s.recon;
    if pc.Deciding? || pc.Window? || pc.Forgetting? || pc.Forgotten? || pc.Unrecording? {
      DroppingAside(c, s, env);
    } else if pc.Approving? || pc.Auto? || pc.AutoChecked? || pc.AutoCleared? || pc.Arming? {
      ArmingAside(c, s, env);
    } else {
      HoldingAside(c, s, env);
    }
  }

  // ---- FireGuard and the environment ----------------------------------------------

  lemma TrustingAside(c: Config, s: State, t: nat, id: string, began: nat)
    ensures Aside(s, Trust(c, s, t, id, began))
  {
  }

  lemma HandlingAside(s: State, t: nat, id: string, began: nat)
    ensures Aside(s, Handle(s, t, id, began))
  {
  }

  lemma BeginningAside(s: State, t: nat, id: string)
    ensures Aside(s, BeginFire(s, t, id))
  {
    if t in s.fires {} else if id in s.pending {} else {}
  }

  lemma HashingAside(s: State, t: nat, k: Task, began: nat, handled: nat)
    ensures Aside(s, HashLive(s, t, k, began, handled))
  {
    if k in s.disk {} else {}
  }

  lemma FireAside(c: Config, s: State, t: nat)
    ensures Aside(s, NextFire(c, s, t))
  {
    if t in s.fires {
      match s.fires[t]
      case Trusting(id, began) => TrustingAside(c, s, t, id, began);
      case Handling(id, began) => HandlingAside(s, t, id, began);
      case HashingLive(k, began, handled) => HashingAside(s, t, k, began, handled);
      case Checking(k, live, hashed) =>
    }
  }

  lemma EnvironmentAside(c: Config, s: State, l: Label)
    requires l.Edit? || l.EndWindow? || l.StartAdmit? || l.StartForget?
    ensures Aside(s, Next(c, s, l))
  {
    if s.recon != Idle {} else {}
  }

  lemma OthersAside(c: Config, s: State, l: Label)
    requires !l.StartApprove? && !l.Approve?
    ensures Aside(s, Next(c, s, l))
  {
    if l.Recon? {
      ReconcilerAside(c, s, l.env);
    } else if l.StartFire? {
      BeginningAside(s, l.t, l.id);
    } else if l.Fire? {
      FireAside(c, s, l.t);
    } else {
      EnvironmentAside(c, s, l);
    }
  }

  // ---- Approve calls --------------------------------------------------------------

  // A call started: it read the entry, and will grant from this read.
  predicate Started(s: State, s': State, t: nat, id: string, want: string) {
    && t !in s.approvers && Grows(s, s') && |s'.hist| == |s.hist| + 1
    && s'.hist[|s.hist|].Read? && s'.hist[|s.hist|].id == id && s'.hist[|s.hist|].want == want
    && s'.approvers.Keys == s.approvers.Keys + {t}
    && s'.approvers[t].Recording? && s'.approvers[t].read == |s.hist|
    && forall u :: u in s.approvers ==> s'.approvers[u] == s.approvers[u]
  }

  lemma StartShape(s: State, t: nat, id: string, want: string)
    ensures BeginApprove(s, t, id, want) == s || Started(s, BeginApprove(s, t, id, want), t, id, want)
  {
  }

  // A call moved on: from Recording it granted, and no call is newly recording.
  predicate Moved(s: State, s': State, t: nat) {
    && Grows(s, s') && t in s.approvers
    && (t in s'.approvers ==> !s'.approvers[t].Recording?)
    && (forall u :: u in s'.approvers && u != t ==> u in s.approvers && s'.approvers[u] == s.approvers[u])
    && (|s'.hist| > |s.hist| ==>
          var e := s'.hist[|s.hist|];
          !e.Read? && (e.Granted? ==> s.approvers[t].Recording? && s.approvers[t].read == e.read))
  }

  lemma GrantShape(s: State, t: nat, env: Env, id: string, ent: Entry, want: string, read: nat)
    requires t in s.approvers && s.approvers[t] == Recording(id, ent, want, read)
    ensures Moved(s, Grant(s, t, env, id, ent, want, read), t)
  {
  }

  lemma ArmShape(s: State, t: nat, env: Env, id: string, ent: Entry, read: nat)
    requires t in s.approvers
    ensures Moved(s, ArmApproved(s, t, env, id, ent, read), t)
  {
  }

  lemma ClearShape(s: State, t: nat, id: string, ent: Entry, read: nat)
    requires t in s.approvers
    ensures Moved(s, Clear(s, t, id, ent, read), t)
  {
  }

  lemma MoveShape(s: State, t: nat, env: Env)
    requires t in s.approvers
    ensures Moved(s, NextApprove(s, t, env), t)
  {
    match s.approvers[t]
    case Recording(id, ent, want, read) => GrantShape(s, t, env, id, ent, want, read);
    case ArmingApproved(id, ent, read) => ArmShape(s, t, env, id, ent, read);
    case Clearing(id, ent, read) => ClearShape(s, t, id, ent, read);
  }

  lemma HistoryGrows(c: Config, s: State, l: Label)
    ensures Grows(s, Next(c, s, l))
  {
    if l.StartApprove? {
      StartShape(s, l.t, l.id, l.want);
    } else if l.Approve? {
      if l.t in s.approvers { MoveShape(s, l.t, l.env); }
    } else {
      OthersAside(c, s, l);
    }
  }

  // ---- One grant per read ---------------------------------------------------------

  // No two grants come from one read, and each from an earlier one.
  predicate GrantsDiffer(hist: seq<Event>) {
    && (forall g :: 0 <= g < |hist| && hist[g].Granted? ==> hist[g].read < g)
    && (forall f, g :: 0 <= f < g < |hist| && hist[f].Granted? && hist[g].Granted? ==> hist[f].read != hist[g].read)
  }

  // A call still to grant has a read no grant came from yet.
  predicate Unspent(hist: seq<Event>, pc: ApprovePc) {
    pc.Recording? ==>
      pc.read < |hist| && forall g :: 0 <= g < |hist| && hist[g].Granted? ==> hist[g].read != pc.read
  }

  predicate OwnReads(s: State) {
    && GrantsDiffer(s.hist)
    && (forall t :: t in s.approvers ==> Unspent(s.hist, s.approvers[t]))
    && (forall t, u | t in s.approvers && u in s.approvers && t != u ::
          s.approvers[t].Recording? && s.approvers[u].Recording? ==> s.approvers[t].read != s.approvers[u].read)
  }

  lemma StaysUnspent(hist: seq<Event>, hist': seq<Event>, pc: ApprovePc)
    requires Unspent(hist, pc) && hist <= hist' && |hist'| <= |hist| + 1
    requires |hist'| > |hist| && hist'[|hist|].Granted? && pc.Recording? ==> hist'[|hist|].read != pc.read
    ensures Unspent(hist', pc)
  {
  }

  lemma AsideKeepsReads(s: State, s': State)
    requires OwnReads(s) && Aside(s, s')
    ensures OwnReads(s')
  {
    forall t | t in s'.approvers ensures Unspent(s'.hist, s'.approvers[t]) {
      StaysUnspent(s.hist, s'.hist, s.approvers[t]);
    }
  }

  lemma StartKeepsReads(s: State, s': State, t: nat, id: string, want: string)
    requires OwnReads(s) && Started(s, s', t, id, want)
    ensures OwnReads(s')
  {
    forall u | u in s.approvers ensures Unspent(s'.hist, s.approvers[u]) {
      StaysUnspent(s.hist, s'.hist, s.approvers[u]);
    }
  }

  lemma MoveKeepsReads(s: State, s': State, t: nat)
    requires OwnReads(s) && Moved(s, s', t)
    ensures OwnReads(s')
  {
    assert Unspent(s.hist, s.approvers[t]);
    forall u | u in s'.approvers ensures Unspent(s'.hist, s'.approvers[u]) {
      if u != t { StaysUnspent(s.hist, s'.hist, s.approvers[u]); }
    }
  }

  lemma {:induction false} ReadsStayOwn(c: Config, s: State, ls: seq<Label>)
    requires OwnReads(s)
    ensures OwnReads(Exec(c, s, ls))
    decreases |ls|
  {
    if ls != [] {
      var l, s' := ls[0], Next(c, s, ls[0]);
      if l.StartApprove? {
        StartShape(s, l.t, l.id, l.want);
        if s' != s { StartKeepsReads(s, s', l.t, l.id, l.want); }
      } else if l.Approve? {
        if l.t in s.approvers {
          MoveShape(s, l.t, l.env);
          MoveKeepsReads(s, s', l.t);
        }
      } else {
        OthersAside(c, s, l);
        AsideKeepsReads(s, s');
      }
      ReadsStayOwn(c, s', ls[1..]);
    }
  }

  // In every run, no two grants come from one read of a pending entry.
  lemma OneGrantPerRead(c: Config, ls: seq<Label>, f: nat, g: nat)
    requires f < g < |Exec(c, Start(c), ls).hist|
    requires Exec(c, Start(c), ls).hist[f].Granted? && Exec(c, Start(c), ls).hist[g].Granted?
    ensures Exec(c, Start(c), ls).hist[f].read != Exec(c, Start(c), ls).hist[g].read
  {
    ReadsStayOwn(c, Start(c), ls);
  }
}
