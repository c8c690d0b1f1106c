// The gate and its lock over whole histories of sessions: what stands behind a fire of
// an untrusted task when the record it matched may be older than the session
// (pkg/approval/gate.go, pkg/approval/lock.go, sessions as in pkg/daemon/daemon.go).
module FireProvenance {
  import opened Records
  import opened GateModel
  import opened GateHistory
  import opened GateSafety
  import P = Provenance
  import S = Sessions
  import L = Lock

  // One life of the daemon: the event that started it, the configuration of its gate
  // and what the gate's goroutines did.
  datatype Session = Session(boot: nat, config: Config, ls: seq<Label>)

  function HistoryOf(x: Session): seq<Event> {
    History(x.config, x.ls)
  }

  // The gate starts from what startup loaded.
  predicate StartsFrom(es: seq<S.Event>, tr: seq<S.World>, x: Session)
    requires |tr| == |es| + 1
  {
    && x.boot < |es| && es[x.boot].Boot? && tr[x.boot].daemon.Down? && tr[x.boot + 1].daemon.Up?
    && x.config.records == tr[x.boot + 1].daemon.memory.tasks
    && x.config.window == tr[x.boot + 1].daemon.window && x.config.enabled == es[x.boot].enabled
  }

  // x is the session the daemon is in when event i happens.
  predicate RunsAt(tr: seq<S.World>, x: Session, i: nat) {
    x.boot < i < |tr| && forall m :: x.boot < m <= i ==> tr[m].daemon.Up?
  }

  // The lock is written by the gate of the running session alone.
  predicate WrittenBy(es: seq<S.Event>, tr: seq<S.World>, x: Session, i: nat, g: nat)
    requires i < |es|
  {
    && es[i].RecordTask? && RunsAt(tr, x, i) && g < |HistoryOf(x)|
    && Grants(HistoryOf(x)[g], es[i].id, es[i].r.hash) && HistoryOf(x)[g].via == es[i].r.via
  }

  ghost predicate ByTheGate(es: seq<S.Event>, tr: seq<S.World>, xs: seq<Session>, i: nat)
    requires i < |es|
  {
    exists b: nat, g: nat :: b < |xs| && WrittenBy(es, tr, xs[b], i, g)
  }

  ghost predicate Whole(es: seq<S.Event>, tr: seq<S.World>, xs: seq<Session>) {
    && |tr| == |es| + 1
    && (forall b :: 0 <= b < |xs| ==> StartsFrom(es, tr, xs[b]))
    && (forall i: nat {:trigger ByTheGate(es, tr, xs, i)} ::
          i < |es| && es[i].RecordTask? ==> ByTheGate(es, tr, xs, i))
  }

  // Grant g is the one of an arm that looks at no hash: the session trusted the task.
  predicate PolicyGrant(c: Config, hist: seq<Event>, g: nat, id: string, h: string) {
    && g < |hist| && hist[g].AutoGranted? && hist[g].id == id && hist[g].hash == h
    && PolicyArm(c, id) == Some(hist[g].via)
  }

  ghost predicate Backs(x: Session, g: nat, id: string, h: string) {
    || OperatorGrant(x.config, HistoryOf(x), g, id, h)
    || SeedingGrant(x.config, HistoryOf(x), g, id, h)
    || PolicyGrant(x.config, HistoryOf(x), g, id, h)
  }

  lemma EveryGrantIsBacked(x: Session, g: nat, id: string, h: string)
    requires g < |HistoryOf(x)| && Grants(HistoryOf(x)[g], id, h)
    ensures Backs(x, g, id, h)
  {
    var c, hist := x.config, HistoryOf(x);
    if hist[g].Granted? || !Trusted(c, id) {
      UntrustedGrant(c, x.ls, g, id, h);
    } else {
      Justification(c, x.ls, g);
      var d := hist[g].decided;
      assert hist[..g][d] == hist[d];
      Justification(c, x.ls, d);
      TrustedIsPolicyArm(c, id);
    }
  }

  // A lock record of hash h that no session made.
  ghost predicate FromOutside(es: seq<S.Event>, start: L.File, n: nat, id: string, h: string) {
    exists r: Record :: r.hash == h
      && (P.Holds(start, id, r)
          || exists i: nat :: i < n <= |es| && es[i].PlaceLock? && P.Unsigned(es[i].file) && P.Holds(es[i].file, id, r))
  }

  // What was in the lock when a session started.
  lemma LoadedRecordIsBacked(k: L.Key, es: seq<S.Event>, tr: seq<S.World>, xs: seq<Session>, a: nat, id: string)
    requires P.IsRun(k, es, tr) && P.NoForgery(k, es, tr) && Whole(es, tr, xs) && P.PlainStart(k, tr[0].file)
    requires a < |xs| && id in xs[a].config.records
    ensures
      var h := xs[a].config.records[id].hash;
      || FromOutside(es, tr[0].file, xs[a].boot + 1, id, h)
      || exists b: nat, g: nat :: b < |xs| && xs[b].boot < xs[a].boot && Backs(xs[b], g, id, h)
  {
    var n := xs[a].boot + 1;
    assert StartsFrom(es, tr, xs[a]);
    P.RecordsHaveASource(k, es, tr, n, id);
    var r := xs[a].config.records[id];
    if i: nat :| i < n && es[i].RecordTask? && es[i].id == id && es[i].r == r {
      assert ByTheGate(es, tr, xs, i);
      var b: nat, g: nat :| b < |xs| && WrittenBy(es, tr, xs[b], i, g);
      EveryGrantIsBacked(xs[b], g, id, r.hash);
      assert xs[b].boot < xs[a].boot && Backs(xs[b], g, id, r.hash);
    } else {
      assert FromOutside(es, tr[0].file, n, id, r.hash);
    }
  }

  // Over every history of sessions in which no signature is forged: a fire of an
  // untrusted task that the guard let through matched a hash which an operator approved
  // while it was pending, or which was seeded, in this session or an earlier one; or
  // which an earlier session recorded because it trusted the task; or which came with
  // the first lock file or with a placed unsigned version 1 file.
  lemma EveryFireIsBacked(k: L.Key, es: seq<S.Event>, tr: seq<S.World>, xs: seq<Session>, a: nat, i: nat)
    requires P.IsRun(k, es, tr) && P.NoForgery(k, es, tr) && Whole(es, tr, xs) && P.PlainStart(k, tr[0].file)
    requires a < |xs| && i < |HistoryOf(xs[a])| && HistoryOf(xs[a])[i].Fired?
    ensures
      var id, h := HistoryOf(xs[a])[i].task.id, HistoryOf(xs[a])[i].hash;
      || FromOutside(es, tr[0].file, xs[a].boot + 1, id, h)
      || (exists g: nat :: g < i && (OperatorGrant(xs[a].config, HistoryOf(xs[a]), g, id, h)
                                     || SeedingGrant(xs[a].config, HistoryOf(xs[a]), g, id, h)))
      || (exists b: nat, g: nat :: b < |xs| && xs[b].boot < xs[a].boot && Backs(xs[b], g, id, h))
  {
    FireSafety(xs[a].config, xs[a].ls, i);
    var id := HistoryOf(xs[a])[i].task.id;
    if id in xs[a].config.records && xs[a].config.records[id].hash == HistoryOf(xs[a])[i].hash {
      LoadedRecordIsBacked(k, es, tr, xs, a, id);
    }
  }
}
