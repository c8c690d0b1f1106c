// The gate as the object the daemon holds, one method per entry point, each
// proved against the tables it leaves behind (GateSequential). Which
// interleavings of its critical sections are possible, and what they keep, is
// the business of GateModel and GateSafety.
module GateObject {
  import opened Records
  import opened TaskIds
  import opened GateModel
  import opened GateSequential
  import L = Lock

  class Gate {
    const config: Config
    const lock: L.Lock
    var pending: map<string, Entry>
    var admitted: map<string, Task>
    var bootstrap: bool
    // The trigger engine's registrations, moved by the arm and disarm callbacks.
    var armed: map<string, Task>
    var generation: nat

    constructor (config: Config, lock: L.Lock, bootstrap: bool)
      ensures this.config == config && this.lock == lock
      ensures Now() == Tables(lock.tasks, map[], map[], bootstrap, map[])
    {
      this.config, this.lock, this.bootstrap := config, lock, bootstrap;
      pending, admitted, armed, generation := map[], map[], map[], 0;
    }

    function Now(): Tables
      reads this, lock
    {
      Tables(lock.tasks, pending, admitted, bootstrap, armed)
    }

    method FinishBootstrap() returns (was: bool)
      modifies this`bootstrap
      ensures was == old(bootstrap) && !bootstrap
    {
      was := bootstrap;
      bootstrap := false;
    }

    method ClearPending(id: string)
      modifies this`pending
      ensures pending == old(pending) - {id}
    {
      pending := pending - {id};
    }

    method Arm(k: Task, armOk: bool) returns (ok: bool)
      modifies this`armed
      ensures ok == armOk && armed == if ok then old(armed)[k.id := k] else old(armed)
    {
      ok := armOk;
      if ok { armed := armed[k.id := k]; }
    }

    // OnRegister: Admit, then disarm when the task was not armed. content is what
    // hashing the task directory gave, None for an error.
    method Register(k: Task, content: Option<string>, env: Env) returns (isArmed: bool, notified: bool)
      modifies this, lock, lock.disk`file
      ensures var h := if content.Some? then content.value else "";
              && isArmed == Arms(config, old(Now()), k.id, h)
              && notified == Notifies(config, old(Now()), k, h)
              && Now() == AfterAdmit(config, old(Now()), k, h, env, old(generation))
      ensures !isArmed ==> generation == old(generation) + 1
    {
      var ok;
      isArmed, notified, ok := Admit(k, content, env);
      if !isArmed { armed := armed - {k.id}; }
    }

    method Admit(k: Task, content: Option<string>, env: Env) returns (isArmed: bool, notified: bool, ok: bool)
      modifies this, lock, lock.disk`file
      ensures var h := if content.Some? then content.value else "";
              var g := AfterAdmit(config, old(Now()), k, h, env, old(generation));
              && isArmed == Arms(config, old(Now()), k.id, h)
              && notified == Notifies(config, old(Now()), k, h)
              && (if isArmed then Now() == g else Now().(armed := old(armed) - {k.id}) == g && armed == old(armed))
              && ok == (isArmed ==> env.armOk)
      // The hook runs for a version that is held and is not already pending as it is.
      ensures
        var h := if content.Some? then content.value else "";
        var enabled := if k in config.preview then config.preview[k] else k.enabled;
        notified <==>
          && !isArmed
          && (k.id !in old(pending) || old(pending)[k.id].hash != h || old(pending)[k.id].enabled != enabled)
      ensures generation == if isArmed then old(generation) else old(generation) + 1
    {
      var id := k.id;
      var hash := if content.Some? then content.value else "";
      admitted := admitted[id := k];
      notified := false;
      var via;
      if SourceOf(id) == BUILTIN_SOURCE && !config.builtinPinned {
        via := Builtin;
      } else if id in config.trustedTasks {
        via := TrustedTask;
      } else if SourceOf(id) in config.trustedSources {
        via := TrustedSource;
      } else if !config.enabled {
        via := GateDisabled;
      } else {
        var approved := lock.IsApproved(id, hash);
        if approved {
          ClearPending(id);
          ok := Arm(k, env.armOk);
          return true, false, ok;
        }
        if !bootstrap {
          notified := Hold(k, hash, env);
          return false, notified, true;
        }
        via := Bootstrap;
      }
      ok := AutoApprove(k, hash, via, env);
      isArmed := true;
    }

    // The default arm: hold the task pending.
    method Hold(k: Task, hash: string, env: Env) returns (changed: bool)
      modifies this`pending, this`generation
      ensures generation == old(generation) + 1
      ensures pending == old(pending)[k.id := NewEntry(config, old(Now()), k, hash, env, old(generation))]
      ensures changed == !(k.id in old(pending) && old(pending)[k.id].SameVersion(hash, ResolvedEnabled(config, k)))
    {
      var enabled := ResolvedEnabled(config, k);
      var was := k.id in pending;
      changed := !was || pending[k.id].hash != hash || pending[k.id].enabled != enabled;
      var base := if k.id in lock.tasks then lock.tasks[k.id].commit else "";
      pending := pending[k.id := Entry(k, hash, env.commit, env.remote, base, enabled, generation)];
      generation := generation + 1;
    }

    // The auto-approve arms: keep the lock current, then arm. A failed write of
    // the lock does not keep the task from being armed.
    method AutoApprove(k: Task, hash: string, via: By, env: Env) returns (ok: bool)
      modifies this`pending, this`armed, lock`tasks, lock.disk`file
      ensures ok == env.armOk
      ensures pending == old(pending) - {k.id}
      ensures armed == Armed(old(Now()), k, env)
      ensures
        var r := Record(hash, env.at, via, if Approved(old(lock.tasks), k.id, hash) then "" else env.commit);
        lock.tasks == if hash == "" then old(lock.tasks) else Recorded(old(lock.tasks), k.id, r)
    {
      var hashUnchanged := lock.IsApproved(k.id, hash);
      ClearPending(k.id);
      if hash != "" {
        var commit := if hashUnchanged then "" else env.commit;
        var saved := lock.Record(k.id, hash, via, commit, env.at);
      }
      ok := Arm(k, env.armOk);
    }

    // Approve ("" for want), ApproveIfHash and ApproveReporting.
    method Approve(id: string, want: string, env: Env) returns (outcome: Outcome, enabled: bool)
      modifies this, lock, lock.disk`file
      ensures
        var e := env.(saved := lock.disk.writable);
        && outcome == ApproveOutcome(old(Now()), id, want, e)
        && Now() == AfterApprove(old(Now()), id, want, e)
      ensures outcome == NotPending <==> id !in old(pending)
      ensures outcome == NoHash <==> id in old(pending) && old(pending)[id].hash == ""
      ensures outcome == HashMismatch <==>
        id in old(pending) && old(pending)[id].hash != "" && want != "" && want != old(pending)[id].hash
      // The flag of the very entry that was approved.
      ensures enabled == (id in old(pending) && old(pending)[id].enabled)
    {
      if id !in pending { return NotPending, false; }
      var ent := pending[id];
      enabled := ent.enabled;
      if ent.hash == "" { return NoHash, enabled; }
      if want != "" && ent.hash != want { return HashMismatch, enabled; }
      var via := if want == "" then Manual else TokenLink;
      var saved := lock.Record(id, ent.hash, via, ent.commit, env.at);
      if !saved { return RecordFailed, enabled; }
      if !env.armOk { return ArmFailed, enabled; }
      armed := armed[id := ent.task];
      if id in pending && pending[id].hash == ent.hash { pending := pending - {id}; }
      outcome := Done;
    }

    // OnUnregister: disarm, then Forget.
    method Unregister(id: string)
      modifies this, lock, lock.disk`file
      ensures Now() == AfterForget(old(Now()), id)
      ensures Now() == Tables(old(lock.tasks) - {id}, old(pending) - {id}, old(admitted) - {id}, old(bootstrap),
                              old(armed) - {id})
    {
      armed := armed - {id};
      ClearPending(id);
      admitted := admitted - {id};
      var saved := lock.Remove(id);
    }

    // live is what hashing each handle's directory gives now.
    method FireGuard(id: string, live: map<Task, string>) returns (ok: bool)
      ensures ok == FireAllows(config, live, Now(), id)
    {
      if id in pending { return false; }
      if Trusted(config, id) { return true; }
      if id !in admitted { return false; }
      var k := admitted[id];
      if k !in live { return false; }
      ok := lock.IsApproved(k.id, live[k]);
    }
  }

  // A task that has just been registered fires exactly when it was armed, unless
  // only the bootstrap window armed it and it has no hash.
  method RegisterThenFire(gate: Gate, k: Task, live: map<Task, string>, env: Env) returns (isArmed: bool, fires: bool)
    modifies gate, gate.lock, gate.lock.disk`file
    ensures fires <==> isArmed && (Trusted(gate.config, k.id) || HashNow(live, k) != "")
  {
    var content := if k in live then Some(live[k]) else None;
    var notified;
    ghost var before := gate.Now();
    ghost var gen := gate.generation;
    isArmed, notified := gate.Register(k, content, env);
    fires := gate.FireGuard(k.id, live);
    AdmitAndFireAgree(gate.config, live, before, k, env, gen);
  }
}
