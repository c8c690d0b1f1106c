// What every run of the gate guarantees, whatever the interleaving.
module GateSafety {
  import opened Records
  import opened GateModel
  import opened GateHistory
  import opened GateInvariant

  // The history of the run that takes the steps ls from startup.
  function History(c: Config, ls: seq<Label>): seq<Event> {
    Exec(c, Start(c), ls).hist
  }

  lemma Justification(c: Config, ls: seq<Label>, i: nat)
    requires i < |History(c, ls)|
    ensures EventOk(c, History(c, ls)[..i], History(c, ls)[i])
  {
    EveryRun(c, ls);
    assert OkAt(c, History(c, ls), i);
  }

  // ---- Where a lock record comes from ---------------------------------------

  predicate Grants(e: Event, id: string, h: string) {
    || (e.Granted? && e.id == id && e.hash == h)
    || (e.AutoGranted? && e.id == id && e.hash == h)
  }

  // e writes or removes the record of id.
  predicate Rewrites(e: Event, id: string) {
    || (e.Granted? && e.id == id)
    || (e.AutoGranted? && e.id == id)
    || (e.Revoked? && e.id == id)
  }

  predicate Untouched(hist: seq<Event>, id: string, from: nat) {
    forall j :: from <= j < |hist| ==> !Rewrites(hist[j], id)
  }

  // The record standing at the end of hist is the one of startup, or the one
  // the last grant wrote.
  ghost predicate StandsSince(c: Config, hist: seq<Event>, id: string, h: string) {
    || (id in c.records && c.records[id].hash == h && Untouched(hist, id, 0))
    || exists g: nat :: g < |hist| && Grants(hist[g], id, h) && Untouched(hist, id, g + 1)
  }

  lemma StandsOn(c: Config, hist: seq<Event>, id: string, h: string)
    requires hist != [] && StandsSince(c, hist[..|hist| - 1], id, h) && !Rewrites(hist[|hist| - 1], id)
    ensures StandsSince(c, hist, id, h)
  {
    var n := |hist| - 1;
    if id in c.records && c.records[id].hash == h && Untouched(hist[..n], id, 0) {
      assert forall j :: 0 <= j < n ==> hist[..n][j] == hist[j];
      assert Untouched(hist, id, 0);
    } else {
      var g: nat :| g < n && Grants(hist[..n][g], id, h) && Untouched(hist[..n], id, g + 1);
      assert forall j :: 0 <= j < n ==> hist[..n][j] == hist[j];
      assert Grants(hist[g], id, h) && Untouched(hist, id, g + 1);
    }
  }

  lemma {:induction false} RecordOrigin(c: Config, hist: seq<Event>, id: string)
    requires id in HashesOf(c, hist)
    ensures StandsSince(c, hist, id, HashesOf(c, hist)[id])
  {
    if hist != [] {
      var n := |hist| - 1;
      if Rewrites(hist[n], id) {
        assert Grants(hist[n], id, HashesOf(c, hist)[id]) && Untouched(hist, id, n + 1);
      } else {
        RecordOrigin(c, hist[..n], id);
        StandsOn(c, hist, id, HashesOf(c, hist)[id]);
      }
    }
  }

  // ---- Fire safety ----------------------------------------------------------

  // Grant g of h to id is an operator's: an approve call that found, pending, a
  // generation with exactly this hash, which Admit had observed on disk; a
  // token-bound call named that hash.
  ghost predicate OperatorGrant(c: Config, hist: seq<Event>, g: nat, id: string, h: string) {
    && g < |hist| && hist[g].Granted? && hist[g].id == id && hist[g].hash == h
    && var r := hist[g].read;
    && r < g && hist[r].Read? && hist[r].id == id && (hist[r].want == "" || hist[r].want == h)
    && hist[g].via == (if hist[r].want == "" then Manual else TokenLink)
    && var p := hist[r].gen;
    && p < r && hist[p].Published? && hist[p].ent.hash == h && hist[p].ent.task.id == id
    && id in PendingOf(hist[..r]) && PendingOf(hist[..r])[id] == hist[p].ent
    && SeenOnDisk(c, hist, hist[p].observed, hist[p].ent.task, h)
    && hist[p].observed < p
  }

  // Grant g is a seeding one, decided before the bootstrap window closed.
  ghost predicate SeedingGrant(c: Config, hist: seq<Event>, g: nat, id: string, h: string) {
    && g < |hist| && hist[g].AutoGranted? && hist[g].id == id && hist[g].hash == h && hist[g].via == Bootstrap
    && var d := hist[g].decided;
    && d < g && hist[d].Decided? && hist[d].id == id && hist[d].hash == h
    && c.window && WindowClosed !in hist[..d]
    && var o := hist[d].observed;
    && o < d && hist[o].Observed? && hist[o].task.id == id && SeenOnDisk(c, hist, o, hist[o].task, h)
  }

  ghost predicate SeenOnDisk(c: Config, hist: seq<Event>, o: nat, k: Task, h: string) {
    && o < |hist| && hist[o] == Observed(k, h)
    && HashNow(DiskOf(c, hist[..o]), k) == h
  }

  // Which grants an untrusted task can have, and what an approve call grants to any.
  lemma UntrustedGrant(c: Config, ls: seq<Label>, g: nat, id: string, h: string)
    requires g < |History(c, ls)| && Grants(History(c, ls)[g], id, h)
    requires History(c, ls)[g].Granted? || !Trusted(c, id)
    ensures OperatorGrant(c, History(c, ls), g, id, h) || SeedingGrant(c, History(c, ls), g, id, h)
    ensures h != ""
  {
    var hist := History(c, ls);
    Justification(c, ls, g);
    if hist[g].Granted? {
      var r := hist[g].read;
      Justification(c, ls, r);
      assert hist[..g][r] == hist[r] && hist[..g][hist[r].gen] == hist[hist[r].gen];
      var p := hist[r].gen;
      assert hist[..r][p] == hist[p];
      Justification(c, ls, p);
      Justification(c, ls, hist[p].observed);
      assert hist[..p][hist[p].observed] == hist[hist[p].observed];
    } else {
      var d := hist[g].decided;
      assert hist[..g][d] == hist[d];
      Justification(c, ls, d);
      var o := hist[d].observed;
      assert hist[..d][o] == hist[o];
      Justification(c, ls, o);
      TrustedIsPolicyArm(c, id);
    }
  }

  // A fire of an untrusted task that the guard let through: the hash was taken
  // from live content of the handle that was admitted when the call looked, by a
  // call that started while the task was not pending; the record standing at the final check has that hash;
  // and the record is the one of startup, an operator's, or a seeded one.
  ghost predicate FireJustified(c: Config, hist: seq<Event>, i: nat)
    requires i < |hist| && hist[i].Fired?
  {
    var k, h, l := hist[i].task, hist[i].hash, hist[i].hashed;
    && h != "" && !Trusted(c, k.id)
    && l < i && hist[l].Hashed? && hist[l].task == k && hist[l].hash == h
    && k in DiskOf(c, hist[..l]) && DiskOf(c, hist[..l])[k] == h
    && hist[l].began < l && hist[hist[l].began] == Began(k.id)
    && k.id !in PendingOf(hist[..hist[l].began])
    && hist[l].began < hist[l].handled <= l
    && k.id in AdmittedOf(hist[..hist[l].handled]) && AdmittedOf(hist[..hist[l].handled])[k.id] == k
    && k.id in HashesOf(c, hist[..i]) && HashesOf(c, hist[..i])[k.id] == h
    && ((k.id in c.records && c.records[k.id].hash == h && Untouched(hist[..i], k.id, 0))
        || exists g: nat :: g < i && Untouched(hist[..i], k.id, g + 1)
              && (OperatorGrant(c, hist, g, k.id, h) || SeedingGrant(c, hist, g, k.id, h)))
  }

  lemma FireSafety(c: Config, ls: seq<Label>, i: nat)
    requires i < |History(c, ls)| && History(c, ls)[i].Fired?
    ensures FireJustified(c, History(c, ls), i)
  {
    var hist := History(c, ls);
    var k, h, l := hist[i].task, hist[i].hash, hist[i].hashed;
    Justification(c, ls, i);
    assert hist[..i][l] == hist[l];
    Justification(c, ls, l);
    var b := hist[l].began;
    assert hist[..l][b] == hist[b] && hist[..l][..hist[l].handled] == hist[..hist[l].handled];
    Justification(c, ls, b);
    RecordOrigin(c, hist[..i], k.id);
    if !(k.id in c.records && c.records[k.id].hash == h && Untouched(hist[..i], k.id, 0)) {
      var g: nat :| g < i && Grants(hist[..i][g], k.id, h) && Untouched(hist[..i], k.id, g + 1);
      UntrustedGrant(c, ls, g, k.id, h);
    }
  }

  // ---- A newer version stays held -------------------------------------------

  predicate Releases(e: Event, id: string) {
    || (e.Withdrawn? && e.id == id)
    || (e.Accepted? && e.id == id)
  }

  predicate Publishes(e: Event, id: string) {
    e.Published? && e.ent.task.id == id
  }

  // The pending entry of id is the latest generation published, not released since.
  lemma {:induction false} PendingIsLatest(c: Config, hist: seq<Event>, id: string)
    ensures id in PendingOf(hist) ==>
      exists p: nat :: p < |hist| && Publishes(hist[p], id) && hist[p].ent == PendingOf(hist)[id]
        && forall j :: p < j < |hist| ==> !Releases(hist[j], id) && !Publishes(hist[j], id)
  {
    if hist != [] && id in PendingOf(hist) {
      var n := |hist| - 1;
      if Publishes(hist[n], id) {
        assert hist[n].ent == PendingOf(hist)[id];
      } else {
        PendingIsLatest(c, hist[..n], id);
        var p: nat :| p < n && Publishes(hist[..n][p], id) && hist[..n][p].ent == PendingOf(hist[..n])[id]
          && forall j :: p < j < n ==> !Releases(hist[..n][j], id) && !Publishes(hist[..n][j], id);
        assert Publishes(hist[p], id);
        forall j | p < j < |hist| ensures !Releases(hist[j], id) && !Publishes(hist[j], id) {
          if j < n { assert hist[..n][j] == hist[j]; }
        }
      }
    }
  }

  lemma {:induction false} StaysPending(c: Config, hist: seq<Event>, id: string, p: nat)
    requires p < |hist| && Publishes(hist[p], id)
    requires forall j :: p < j < |hist| ==> !Releases(hist[j], id)
    ensures id in PendingOf(hist)
  {
    var n := |hist| - 1;
    if p < n {
      assert hist[..n][p] == hist[p];
      assert forall j :: p < j < n ==> hist[..n][j] == hist[j];
      StaysPending(c, hist[..n], id, p);
    }
  }

  // Once published, a version stays pending, and every FireGuard call that
  // starts is vetoed, until the entry is released.
  lemma HeldUntilReleased(c: Config, ls: seq<Label>, id: string, p: nat, n: nat)
    requires p < n < |History(c, ls)| && Publishes(History(c, ls)[p], id)
    requires forall j :: p < j < n ==> !Releases(History(c, ls)[j], id)
    ensures id in PendingOf(History(c, ls)[..n])
    ensures History(c, ls)[n] != Began(id)
  {
    var hist := History(c, ls);
    assert hist[..n][p] == hist[p];
    StaysPending(c, hist[..n], id, p);
    Justification(c, ls, n);
  }

  // An approve call releases only the version it read and granted: whatever was
  // published last when it finished has the hash of the entry it read, and the
  // call wrote that hash to the lock in between.
  lemma ApproverReleasesOwnVersion(c: Config, ls: seq<Label>, p: nat, j: nat)
    requires p < j < |History(c, ls)| && History(c, ls)[j].Accepted?
    requires Publishes(History(c, ls)[p], History(c, ls)[j].id)
    requires forall q :: p < q < j ==> !Publishes(History(c, ls)[q], History(c, ls)[j].id)
    ensures
      var hist := History(c, ls);
      var r := hist[j].read;
      && r < j && hist[r].Read? && hist[r].gen < r && hist[hist[r].gen].Published?
      && hist[hist[r].gen].ent.hash == hist[p].ent.hash
      && exists g :: r < g < j && hist[g].Granted? && hist[g].read == r
  {
    var hist := History(c, ls);
    var id, r := hist[j].id, hist[j].read;
    Justification(c, ls, j);
    PendingIsLatest(c, hist[..j], id);
    var q: nat :| q < j && Publishes(hist[..j][q], id) && hist[..j][q].ent == PendingOf(hist[..j])[id]
      && forall m :: q < m < j ==> !Releases(hist[..j][m], id) && !Publishes(hist[..j][m], id);
    assert hist[..j][p] == hist[p] && hist[..j][q] == hist[q];
    assert q == p;
    var g :| r < g < j && hist[..j][g].Granted? && hist[..j][g].read == r;
    assert hist[g].Granted?;
  }

  // The reconciler withdraws a pending entry only because the lock held the very
  // hash it had just observed, because an auto-approve arm took the task, or
  // because the task was removed.
  lemma ReconcilerReleaseCause(c: Config, ls: seq<Label>, j: nat)
    requires j < |History(c, ls)| && History(c, ls)[j].Withdrawn?
    ensures
      var hist := History(c, ls);
      var id, q := hist[j].id, hist[j].cause;
      && q < j
      && (hist[q] == Forgets(id)
          || (hist[q].Decided? && hist[q].id == id && ArmAllows(c, OpenOf(c, hist[..q]), id, hist[q].via))
          || (hist[q].Matched? && hist[q].id == id
              && id in HashesOf(c, hist[..q]) && HashesOf(c, hist[..q])[id] == hist[q].hash
              && hist[q].observed < q && hist[hist[q].observed].Observed?
              && SeenOnDisk(c, hist, hist[q].observed, hist[hist[q].observed].task, hist[q].hash)))
  {
    var hist := History(c, ls);
    var q := hist[j].cause;
    Justification(c, ls, j);
    assert hist[..j][q] == hist[q];
    Justification(c, ls, q);
    if hist[q].Matched? {
      var o := hist[q].observed;
      assert hist[..q][o] == hist[o];
      Justification(c, ls, o);
    }
  }

  // ---- Removal fails closed -------------------------------------------------

  lemma {:induction false} AdmittedSince(c: Config, hist: seq<Event>, id: string, d: nat)
    requires d < |hist| && hist[d] == Dropped(id)
    requires id in AdmittedOf(hist)
    ensures exists r :: d < r < |hist| && hist[r].Retained? && hist[r].task.id == id
  {
    var n := |hist| - 1;
    if hist[n].Retained? && hist[n].task.id == id {
    } else {
      assert d < n && hist[..n][d] == hist[d];
      AdmittedSince(c, hist[..n], id, d);
      var r :| d < r < n && hist[..n][r].Retained? && hist[..n][r].task.id == id;
      assert hist[r] == hist[..n][r];
    }
  }

  // After Forget dropped the handle, a FireGuard call that starts lets the task
  // run only if the reconciler admitted it again first; a stale approval that
  // re-records and re-arms it meanwhile makes no difference.
  lemma ForgottenUntilReadmitted(c: Config, ls: seq<Label>, d: nat, i: nat)
    requires d < i < |History(c, ls)| && History(c, ls)[i].Fired?
    requires History(c, ls)[d] == Dropped(History(c, ls)[i].task.id)
    ensures
      var hist := History(c, ls);
      var l := hist[i].hashed;
      && l < i && hist[l].Hashed?
      && (d < hist[l].began ==>
            exists r :: d < r < i && hist[r].Retained? && hist[r].task.id == hist[i].task.id)
  {
    var hist := History(c, ls);
    var k, l := hist[i].task, hist[i].hashed;
    Justification(c, ls, i);
    assert hist[..i][l] == hist[l];
    Justification(c, ls, l);
    if d < hist[l].began {
      var m := hist[l].handled;
      assert hist[..l][..m] == hist[..m] && hist[..m][d] == hist[d];
      AdmittedSince(c, hist[..m], k.id, d);
      var r :| d < r < m && hist[..m][r].Retained? && hist[..m][r].task.id == k.id;
      assert hist[r] == hist[..m][r];
    }
  }

  // ---- What can still record a removed task -----------------------------------

  lemma {:induction false} GrantedAfterRevoked(c: Config, hist: seq<Event>, id: string, d: nat) returns (g: nat)
    requires d < |hist| && hist[d] == Revoked(id) && id in HashesOf(c, hist)
    ensures d < g < |hist| && Grants(hist[g], id, HashesOf(c, hist)[id]) && Untouched(hist, id, g + 1)
  {
    RecordOrigin(c, hist, id);
    assert Rewrites(hist[d], id);
    g :| g < |hist| && Grants(hist[g], id, HashesOf(c, hist)[id]) && Untouched(hist, id, g + 1);
  }

  // A version pending earlier and not now was released in between.
  lemma {:induction false} ReleasedBetween(hist: seq<Event>, id: string, r: nat) returns (w: nat)
    requires r <= |hist| && id in PendingOf(hist[..r]) && id !in PendingOf(hist)
    ensures r <= w < |hist| && Releases(hist[w], id)
  {
    var n := |hist| - 1;
    assert hist[..|hist|] == hist;
    if Releases(hist[n], id) {
      w := n;
    } else {
      assert hist[..n][..r] == hist[..r];
      w := ReleasedBetween(hist[..n], id, r);
      assert hist[..n][w] == hist[w];
    }
  }

  lemma {:induction false} NotPendingWithoutPublication(hist: seq<Event>, id: string, d: nat)
    requires d <= |hist| && id !in PendingOf(hist[..d])
    requires forall j :: d <= j < |hist| ==> !Publishes(hist[j], id)
    ensures id !in PendingOf(hist)
  {
    if d < |hist| {
      var n := |hist| - 1;
      assert hist[..n][..d] == hist[..d];
      NotPendingWithoutPublication(hist[..n], id, d);
    } else {
      assert hist[..d] == hist;
    }
  }

  // After Forget removed the record, and with no version of the task published
  // since, a record is there only through an auto-approve arm, or through an approve
  // call that read the entry before it was withdrawn.
  lemma RerecordedOnlyBy(c: Config, ls: seq<Label>, d: nat, n: nat, id: string) returns (g: nat)
    requires d < n <= |History(c, ls)| && History(c, ls)[d] == Revoked(id)
    requires forall j :: d < j < n ==> !Publishes(History(c, ls)[j], id)
    requires id in HashesOf(c, History(c, ls)[..n])
    ensures
      var hist := History(c, ls);
      && d < g < n && Grants(hist[g], id, HashesOf(c, hist[..n])[id])
      && (hist[g].AutoGranted?
          || (hist[g].read < d && hist[hist[g].read].Read? && hist[hist[g].read].id == id
              && exists w :: hist[g].read < w < d && Releases(hist[w], id)))
  {
    var hist := History(c, ls);
    assert hist[..n][d] == hist[d];
    g := GrantedAfterRevoked(c, hist[..n], id, d);
    if hist[g].Granted? {
      var r := hist[g].read;
      Justification(c, ls, g);
      assert hist[..g][r] == hist[r] && hist[..g][hist[r].gen] == hist[hist[r].gen];
      Justification(c, ls, r);
      Justification(c, ls, d);
      if r > d {
        var past := hist[..r];
        assert past[..d] == hist[..d] && forall j :: d <= j < r ==> past[j] == hist[j];
        NotPendingWithoutPublication(past, id, d);
        assert false;
      }
      assert hist[..d][..r] == hist[..r];
      var w := ReleasedBetween(hist[..d], id, r);
      assert hist[..d][w] == hist[w] && hist[r].Read?;
    }
  }

  // ---- Notifications --------------------------------------------------------

  // With no release since position i, what is pending at position at was
  // published at i or later.
  lemma HeldSince(c: Config, hist: seq<Event>, id: string, i: nat, at: nat) returns (p: nat)
    requires i < at <= |hist| && Publishes(hist[i], id)
    requires forall q :: i < q < at ==> !Releases(hist[q], id)
    ensures i <= p < at && Publishes(hist[p], id)
    ensures id in PendingOf(hist[..at]) && hist[p].ent == PendingOf(hist[..at])[id]
  {
    var past := hist[..at];
    assert forall q :: 0 <= q < at ==> past[q] == hist[q];
    StaysPending(c, past, id, i);
    PendingIsLatest(c, past, id);
    p :| p < at && Publishes(past[p], id) && past[p].ent == PendingOf(past)[id]
      && forall m :: p < m < at ==> !Releases(past[m], id) && !Publishes(past[m], id);
    assert past[i] == hist[i];
  }

  // Between two calls of the hook for one version of a task, the version was
  // released or a different one was published: a run of unchanged re-admits
  // calls it at most once.
  lemma NotifiedOncePerVersion(c: Config, ls: seq<Label>, i: nat, j: nat)
    requires i < j < |History(c, ls)|
    requires History(c, ls)[i].Published? && History(c, ls)[j].Published? && History(c, ls)[j].notify
    requires History(c, ls)[i].ent.task.id == History(c, ls)[j].ent.task.id
    requires History(c, ls)[i].ent.SameVersion(History(c, ls)[j].ent.hash, History(c, ls)[j].ent.enabled)
    ensures
      var hist := History(c, ls);
      var ent := hist[j].ent;
      exists q :: i < q < j
        && (Releases(hist[q], ent.task.id)
            || (Publishes(hist[q], ent.task.id) && !hist[q].ent.SameVersion(ent.hash, ent.enabled)))
  {
    var hist := History(c, ls);
    var ent, o, at := hist[j].ent, hist[j].observed, hist[j].compared;
    var id := ent.task.id;
    Justification(c, ls, j);
    assert hist[..j][i] == hist[i];
    assert hist[..j][..at] == hist[..at] && hist[..j][o] == hist[o];
    if forall q :: i < q < j ==> !Releases(hist[q], id) {
      var p := HeldSince(c, hist, id, i, at);
      assert !hist[p].ent.SameVersion(ent.hash, ent.enabled);
      assert i < p < j && Publishes(hist[p], id);
    }
  }

  // The hook is called exactly for the published generations that differ from
  // the entry Admit read, once each, and before the reconciler's next task.
  lemma NotifiedExactly(c: Config, ls: seq<Label>, p: nat)
    requires p < |History(c, ls)| && History(c, ls)[p].Published?
    ensures History(c, ls)[p].compared <= p
    ensures
      var ent := History(c, ls)[p].ent;
      var was := PendingOf(History(c, ls)[..History(c, ls)[p].compared]);
      && ent.enabled == (if ent.task in c.preview then c.preview[ent.task] else ent.task.enabled)
      && (History(c, ls)[p].notify <==>
            ent.task.id !in was || was[ent.task.id].hash != ent.hash || was[ent.task.id].enabled != ent.enabled)
    ensures
      var hist := History(c, ls);
      var ent := hist[p].ent;
      && (forall n :: 0 <= n < |hist| && hist[n] == Notified(ent) ==> hist[p].notify && p < n)
      && (forall m, n :: 0 <= m < n < |hist| && hist[m] == Notified(ent) ==> hist[n] != Notified(ent))
      && (hist[p].notify ==> forall o :: p < o < |hist| && hist[o].Observed? ==>
            exists n :: p < n < o && hist[n] == Notified(ent))
  {
    var hist := History(c, ls);
    var ent := hist[p].ent;
    Justification(c, ls, p);
    assert ent.gen == p && hist[..p][..hist[p].compared] == hist[..hist[p].compared];
    forall n | 0 <= n < |hist| && hist[n] == Notified(ent)
      ensures hist[p].notify && p < n
      ensures forall m :: 0 <= m < n && hist[m] == Notified(ent) ==> m <= p
    {
      Justification(c, ls, n);
      assert hist[..n][p] == hist[p];
      forall m | 0 <= m < n && hist[m] == Notified(ent) ensures m <= p { assert hist[..n][m] == hist[m]; }
    }
    if hist[p].notify {
      forall o | p < o < |hist| && hist[o].Observed? ensures exists n :: p < n < o && hist[n] == Notified(ent) {
        Justification(c, ls, o);
        assert hist[..o][p] == hist[p] && NotifiedSince(hist[..o], p);
        var n :| p < n < o && hist[..o][n] == Notified(ent);
        assert hist[n] == Notified(ent);
      }
    }
  }

  // ---- Snapshots ------------------------------------------------------------

  // Whatever a reader copies out of the pending table is one published
  // generation, whole: its hash was observed on disk for its handle, and its
  // enabled flag is the resolved one of that handle.
  lemma SnapshotIsOneGeneration(c: Config, ls: seq<Label>, id: string)
    requires id in Exec(c, Start(c), ls).pending
    ensures
      var hist := History(c, ls);
      var ent := Exec(c, Start(c), ls).pending[id];
      && ent.gen < |hist| && hist[ent.gen].Published? && hist[ent.gen].ent == ent
      && ent.task.id == id && ent.enabled == ResolvedEnabled(c, ent.task)
      && hist[ent.gen].observed < ent.gen
      && SeenOnDisk(c, hist, hist[ent.gen].observed, ent.task, ent.hash)
      && !Trusted(c, id)
      && (forall j :: ent.gen < j < |hist| ==> !Publishes(hist[j], id) && !Releases(hist[j], id))
  {
    var hist := History(c, ls);
    EveryRun(c, ls);
    PendingIsLatest(c, hist, id);
    var p: nat :| p < |hist| && Publishes(hist[p], id) && hist[p].ent == PendingOf(hist)[id]
      && forall j :: p < j < |hist| ==> !Releases(hist[j], id) && !Publishes(hist[j], id);
    Justification(c, ls, p);
    var o := hist[p].observed;
    assert hist[..p][o] == hist[o];
    Justification(c, ls, o);
  }
}
