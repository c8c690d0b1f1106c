// delete_input and delete_inputs beside runs that are still storing their input
// (pkg/ipc/server.go, persistence of a run's input in pkg/trigger/runlifecycle.go).
// Reading a row, deleting its blob and clearing its columns are separate
// statements, and the clearing one does not look at the row again. Both verbs are
// handlers over a set of ids; a statement on many rows is one step per row.
module InputRetention {
  import R = Retention

  // The storage key is a function of the run.
  function KeyOf(id: string): string { "run-inputs/" + id }

  lemma KeysDiffer(a: string, b: string)
    ensures KeyOf(a) == KeyOf(b) ==> a == b
    ensures KeyOf(a) != ""
  {
    assert KeyOf(a)[|"run-inputs/"|..] == a && KeyOf(b)[|"run-inputs/"|..] == b;
  }

  // How far storing the input of a run has got. Skipped: it failed on the way.
  datatype Stage = Fresh | Put | Entered | Skipped

  // What a handler saw of a row: its key, and whether one had ever been entered.
  datatype Look = Look(key: string, entered: bool)

  datatype Pc = Pc(ids: set<string>, read: map<string, Look>, replies: map<string, R.Reply>)

  datatype World = World(rows: R.Rows, blobs: set<string>, stages: map<string, Stage>, handlers: map<nat, Pc>)

  const START := World(map[], {}, map[], map[])

  datatype Label =
    | StartRun(id: string)
    | PutBlob(id: string, stored: bool, ok: bool)
    | EnterKey(id: string, at: int, ok: bool)
    | Pin(id: string, on: bool)
    | Begin(t: nat, ids: set<string>)
    | ReadRow(t: nat, id: string)
    | DeleteBlob(t: nat, id: string, reply: R.Reply)
    | ClearRow(t: nat, id: string, ok: bool)
    | Leave(t: nat)

  // Every row was read before the first blob is deleted.
  predicate AllRead(pc: Pc) {
    pc.ids == pc.read.Keys
  }

  // Every blob was tried before the first row is cleared, and this one's delete
  // gave no error.
  predicate MayClear(pc: Pc, id: string) {
    && AllRead(pc) && id in pc.ids
    && (forall x :: x in pc.ids && pc.read[x].key != "" ==> x in pc.replies)
    && (id in pc.replies ==> !pc.replies[id].RunFailed?)
  }

  predicate Reads(w: World, t: nat, id: string) {
    t in w.handlers && id in w.handlers[t].ids && id !in w.handlers[t].read
  }

  predicate Deletes(w: World, t: nat, id: string) {
    && t in w.handlers && AllRead(w.handlers[t]) && id in w.handlers[t].ids
    && w.handlers[t].read[id].key != "" && id !in w.handlers[t].replies
  }

  function Next(w: World, l: Label): World {
    match l
    case StartRun(id) =>
      if id in w.rows || id in w.stages then w
      else
        w.(rows := w.rows[id := R.Row(R.Running, false, "", 0, "", 0)], stages := w.stages[id := Fresh])
    case PutBlob(id, stored, ok) =>
      if id !in w.stages || w.stages[id] != Fresh then w
      else
        w.(blobs := if stored then w.blobs + {KeyOf(id)} else w.blobs,
           stages := w.stages[id := if ok then Put else Skipped])
    case EnterKey(id, at, ok) =>
      if id !in w.stages || w.stages[id] != Put || id !in w.rows then w
      else if !ok then w.(stages := w.stages[id := Skipped])
      else
        w.(rows := w.rows[id := w.rows[id].(inputKey := KeyOf(id), inputAt := at)],
           stages := w.stages[id := Entered])
    case Pin(id, on) =>
      if id !in w.rows then w else w.(rows := w.rows[id := w.rows[id].(pinned := on)])
    case Begin(t, ids) =>
      if t in w.handlers then w else w.(handlers := w.handlers[t := Pc(ids, map[], map[])])
    case ReadRow(t, id) =>
      if !Reads(w, t, id) then w
      else
        var pc := w.handlers[t];
        var look := Look(if id in w.rows then w.rows[id].inputKey else "",
                         id in w.stages && w.stages[id] == Entered);
        w.(handlers := w.handlers[t := pc.(read := pc.read[id := look])])
    case DeleteBlob(t, id, reply) =>
      if !Deletes(w, t, id) then w
      else
        var pc := w.handlers[t];
        w.(blobs := if R.Removes(reply) then w.blobs - {pc.read[id].key} else w.blobs,
           handlers := w.handlers[t := pc.(replies := pc.replies[id := reply])])
    case ClearRow(t, id, ok) =>
      if t !in w.handlers || !MayClear(w.handlers[t], id) || !ok || id !in w.rows then w
      else w.(rows := w.rows[id := R.WithoutInput(w.rows[id])])
    case Leave(t) => w.(handlers := w.handlers - {t})
  }

  function Exec(w: World, ls: seq<Label>): World
    decreases |ls|
  {
    if ls == [] then w else Exec(Next(w, ls[0]), ls[1..])
  }

  lemma BeginsAndReads(w: World, t: nat, id: string) returns (look: Look)
    requires t !in w.handlers
    ensures
      var w' := Next(Next(w, Begin(t, {id})), ReadRow(t, id));
      && w' == w.(handlers := w'.handlers) && w'.handlers - {t} == w.handlers
      && t in w'.handlers && w'.handlers[t] == Pc({id}, map[id := look], map[])
      && look.key == if id in w.rows then w.rows[id].inputKey else ""
  {
    var w1 := Next(w, Begin(t, {id}));
    look := Next(w1, ReadRow(t, id)).handlers[t].read[id];
    assert map[][id := look] == map[id := look];
  }

  lemma DeletesAndClears(w: World, t: nat, id: string, look: Look, reply: R.Reply, ok: bool)
    requires t in w.handlers && w.handlers[t] == Pc({id}, map[id := look], map[])
    ensures
      var w' := Next(Next(Next(w, DeleteBlob(t, id, reply)), ClearRow(t, id, ok)), Leave(t));
      && w'.handlers == w.handlers - {t} && w'.stages == w.stages
      && w'.blobs == w.blobs - (if look.key != "" && R.Removes(reply) then {look.key} else {})
      && w'.rows == if id in w.rows && (look.key == "" || !reply.RunFailed?) && ok
                    then w.rows[id := R.WithoutInput(w.rows[id])] else w.rows
  {
    var w1 := Next(w, DeleteBlob(t, id, reply));
    assert MayClear(w1.handlers[t], id) <==> look.key == "" || !reply.RunFailed?;
  }

  // Run without interruption for one row, the steps are delete_input: the blob goes
  // with a delete that removes it, and the columns are emptied unless the delete failed.
  lemma StepsOfDeleteInput(w: World, t: nat, id: string, reply: R.Reply, ok: bool)
    requires t !in w.handlers
    ensures
      var read := Next(Next(w, Begin(t, {id})), ReadRow(t, id));
      var w' := Next(Next(Next(read, DeleteBlob(t, id, reply)), ClearRow(t, id, ok)), Leave(t));
      var key := if id in w.rows then w.rows[id].inputKey else "";
      && w'.handlers == w.handlers && w'.stages == w.stages
      && w'.blobs ==
           w.blobs - (if key != "" && (reply == R.RunFailed(true) || reply == R.Reported(true)) then {key} else {})
      && w'.rows == if id in w.rows && (key == "" || !reply.RunFailed?) && ok
                    then w.rows[id := w.rows[id].(inputKey := "", inputAt := 0)] else w.rows
  {
    var look := BeginsAndReads(w, t, id);
    var w2 := Next(Next(w, Begin(t, {id})), ReadRow(t, id));
    DeletesAndClears(w2, t, id, look, reply, ok);
  }

  // ---- The invariant ----------------------------------------------------------

  predicate RowOk(w: World, id: string)
    requires id in w.rows
  {
    && id in w.stages
    && (w.rows[id].inputKey != "" ==> w.rows[id].inputKey == KeyOf(id) && w.stages[id] == Entered)
  }

  predicate LookOk(w: World, pc: Pc, id: string)
    requires id in pc.read
  {
    var look := pc.read[id];
    && (look.entered ==> id in w.stages && w.stages[id] == Entered)
    // A key is entered once: seen cleared, a row stays cleared.
    && (look.entered && look.key == "" ==> id in w.rows ==> w.rows[id].inputKey == "")
    && (look.key != "" ==> look.entered && look.key == KeyOf(id))
    // And what was really deleted is not put again.
    && (id in pc.replies ==> look.key != "" && (R.Removes(pc.replies[id]) ==> KeyOf(id) !in w.blobs))
  }

  ghost predicate Inv(w: World) {
    && w.rows.Keys == w.stages.Keys
    && (forall id :: id in w.rows ==> RowOk(w, id))
    && (forall t, id :: t in w.handlers && id in w.handlers[t].read ==> LookOk(w, w.handlers[t], id))
    && (forall t, id :: t in w.handlers && id in w.handlers[t].replies ==> id in w.handlers[t].read)
    && (forall t :: t in w.handlers ==> w.handlers[t].read.Keys <= w.handlers[t].ids)
  }

  // Nothing put, entered or cleared but what concerns id.
  ghost predicate OnlyAbout(w: World, w': World, id: string) {
    && w'.handlers == w.handlers && w'.blobs - {KeyOf(id)} <= w.blobs
    && (forall x :: x != id ==> (x in w'.rows <==> x in w.rows) && (x in w'.stages <==> x in w.stages))
    && (forall x :: x != id && x in w.rows && x in w'.rows ==> w'.rows[x].inputKey == w.rows[x].inputKey)
    && (forall x :: x != id && x in w.stages && x in w'.stages ==> w'.stages[x] == w.stages[x])
  }

  lemma InvAbout(w: World, w': World, id: string)
    requires Inv(w) && OnlyAbout(w, w', id)
    requires (id in w'.rows <==> id in w'.stages) && (id in w'.rows ==> RowOk(w', id))
    requires forall t :: t in w.handlers && id in w.handlers[t].read ==> LookOk(w', w.handlers[t], id)
    ensures Inv(w')
  {
    forall x | x in w'.rows ensures RowOk(w', x) {
      if x != id { assert RowOk(w, x); }
    }
    forall t, x | t in w'.handlers && x in w'.handlers[t].read ensures LookOk(w', w'.handlers[t], x) {
      if x != id {
        assert LookOk(w, w.handlers[t], x);
        KeysDiffer(x, id);
      }
    }
  }

  lemma RunSteps(w: World, l: Label)
    requires Inv(w) && (l.StartRun? || l.PutBlob? || l.EnterKey? || l.Pin?)
    ensures Inv(Next(w, l))
  {
    KeysDiffer(l.id, l.id);
    assert forall t :: t in w.handlers && l.id in w.handlers[t].read ==> LookOk(w, w.handlers[t], l.id);
    assert l.id in w.rows ==> RowOk(w, l.id);
    InvAbout(w, Next(w, l), l.id);
  }

  lemma ClearSteps(w: World, l: Label)
    requires Inv(w) && l.ClearRow?
    ensures Inv(Next(w, l))
  {
    assert forall t :: t in w.handlers && l.id in w.handlers[t].read ==> LookOk(w, w.handlers[t], l.id);
    assert l.id in w.rows ==> RowOk(w, l.id);
    InvAbout(w, Next(w, l), l.id);
  }

  lemma HandlerSteps(w: World, l: Label)
    requires Inv(w) && (l.Begin? || l.ReadRow? || l.Leave?)
    ensures Inv(Next(w, l))
  {
    var w' := Next(w, l);
    forall t, id | t in w'.handlers && id in w'.handlers[t].read ensures LookOk(w', w'.handlers[t], id) {
      if t in w.handlers && id in w.handlers[t].read {
        assert LookOk(w, w.handlers[t], id);
      } else if id in w.rows {
        assert RowOk(w, id);
      }
    }
  }

  lemma DeleteSteps(w: World, l: Label)
    requires Inv(w) && l.DeleteBlob?
    ensures Inv(Next(w, l))
  {
    var w' := Next(w, l);
    forall t, id | t in w'.handlers && id in w'.handlers[t].read ensures LookOk(w', w'.handlers[t], id) {
      assert LookOk(w, w.handlers[t], id);
      KeysDiffer(id, l.id);
    }
  }

  lemma InvStep(w: World, l: Label)
    requires Inv(w)
    ensures Inv(Next(w, l))
  {
    if l.DeleteBlob? { DeleteSteps(w, l); }
    else if l.ClearRow? { ClearSteps(w, l); }
    else if l.Begin? || l.ReadRow? || l.Leave? { HandlerSteps(w, l); }
    else { RunSteps(w, l); }
  }

  lemma {:induction false} InvHolds(w: World, ls: seq<Label>)
    requires Inv(w)
    ensures Inv(Exec(w, ls))
    decreases |ls|
  {
    if ls != [] {
      InvStep(w, ls[0]);
      InvHolds(Next(w, ls[0]), ls[1..]);
    }
  }

  // ---- Orphans ----------------------------------------------------------------

  // A blob whose key was entered in its row, which the row does not lead to any
  // more: no sweep will find it again.
  predicate Orphaned(w: World, id: string) {
    && KeyOf(id) in w.blobs && id in w.stages && w.stages[id] == Entered
    && !(id in w.rows && w.rows[id].inputKey == KeyOf(id))
  }

  predicate Orphans(w: World, l: Label, id: string) {
    !Orphaned(w, id) && Orphaned(Next(w, l), id)
  }

  // The row leads to its blob.
  predicate Linked(w: World, id: string) {
    && KeyOf(id) in w.blobs && id in w.stages && w.stages[id] == Entered
    && id in w.rows && w.rows[id].inputKey == KeyOf(id)
  }

  // t read the row before its key was entered.
  predicate ReadEarly(w: World, t: nat, id: string) {
    t in w.handlers && id in w.handlers[t].read && w.handlers[t].read[id] == Look("", false)
  }

  // t was told that the blob was not deleted when it was not.
  predicate ToldTruly(w: World, t: nat, id: string) {
    t in w.handlers && id in w.handlers[t].replies ==> w.handlers[t].replies[id] != R.Reported(false)
  }

  // The clearing step of a handler that may take it.
  predicate Clears(w: World, l: Label, id: string) {
    l.ClearRow? && l.id == id && l.ok && l.t in w.handlers && MayClear(w.handlers[l.t], id)
  }

  lemma OrphanStep(w: World, l: Label, id: string)
    requires Inv(w)
    ensures Orphans(w, l, id) <==> Clears(w, l, id) && Linked(w, id)
    ensures Orphans(w, l, id) ==> ReadEarly(w, l.t, id) || !ToldTruly(w, l.t, id)
  {
    KeysDiffer(id, id);
    if id in w.rows { assert RowOk(w, id); }
    if l.ClearRow? && l.t in w.handlers && MayClear(w.handlers[l.t], l.id) {
      assert LookOk(w, w.handlers[l.t], l.id);
    } else if l.EnterKey? || l.PutBlob? {
      KeysDiffer(id, l.id);
    }
  }

  // In every interleaving a blob is orphaned by exactly the clearing steps that meet a
  // row leading to it, and those belong to handlers that read the row before its key
  // was entered, or were told of a delete which did not happen.
  lemma OrphanedOnlyBy(before: seq<Label>, l: Label, id: string)
    ensures
      var w := Exec(START, before);
      && (Orphans(w, l, id) <==> Clears(w, l, id) && Linked(w, id))
      && (Orphans(w, l, id) ==> ReadEarly(w, l.t, id) || !ToldTruly(w, l.t, id))
  {
    InvHolds(START, before);
    OrphanStep(Exec(START, before), l, id);
  }

  // ---- Exactly when a handler can still orphan a blob ----------------------------

  // The key of the row is yet to be entered, for a blob that is or can be stored.
  predicate Exposed(w: World, id: string) {
    || id !in w.stages
    || w.stages[id] == Fresh
    || (w.stages[id] == Put && KeyOf(id) in w.blobs)
  }

  // After ls, the clearing step of t orphans the blob; `truly` if no failed delete
  // was hidden from t.
  predicate OrphansAfter(w: World, ls: seq<Label>, t: nat, id: string, truly: bool) {
    var w' := Exec(w, ls);
    Orphans(w', ClearRow(t, id, true), id) && (truly ==> ToldTruly(w', t, id))
  }

  predicate AtRisk(w: World, t: nat, id: string, truly: bool) {
    Exposed(w, id) || (Linked(w, id) && (truly ==> ReadEarly(w, t, id)))
  }

  lemma RiskDoesNotArise(w: World, l: Label, t: nat, id: string, truly: bool)
    requires !AtRisk(w, t, id, truly)
    ensures !AtRisk(Next(w, l), t, id, truly)
  {
    if l.PutBlob? || l.EnterKey? { KeysDiffer(l.id, id); }
    KeysDiffer(id, id);
  }

  lemma {:induction false} NoRiskNoOrphan(w: World, ls: seq<Label>, t: nat, id: string, truly: bool)
    requires Inv(w) && OrphansAfter(w, ls, t, id, truly)
    ensures AtRisk(w, t, id, truly)
    decreases |ls|
  {
    if ls == [] {
      OrphanStep(w, ClearRow(t, id, true), id);
    } else {
      InvStep(w, ls[0]);
      NoRiskNoOrphan(Next(w, ls[0]), ls[1..], t, id, truly);
      if !AtRisk(w, t, id, truly) { RiskDoesNotArise(w, ls[0], t, id, truly); }
    }
  }

  lemma {:induction false} ExecAppend(w: World, a: seq<Label>, b: seq<Label>)
    ensures Exec(w, a + b) == Exec(Exec(w, a), b)
    decreases |a|
  {
    if a == [] {
      assert a + b == b;
    } else {
      assert (a + b)[0] == a[0] && (a + b)[1..] == a[1..] + b;
      ExecAppend(Next(w, a[0]), a[1..], b);
    }
  }

  lemma Then(w: World, ls: seq<Label>, l: Label)
    ensures Exec(w, ls + [l]) == Next(Exec(w, ls), l)
  {
    ExecAppend(w, ls, [l]);
    var w' := Exec(w, ls);
    assert [l][1..] == [];
    assert Exec(Next(w', l), []) == Next(w', l);
  }

  // w' is w but for the program counter of t, now pc.
  predicate OnlyAt(w: World, w': World, t: nat, pc: Pc) {
    w' == w.(handlers := w'.handlers) && t in w'.handlers && w'.handlers[t] == pc
  }

  // A handler begins anew, with one row.
  lemma BeginsAnew(w: World, t: nat, id: string) returns (ls: seq<Label>)
    ensures OnlyAt(w, Exec(w, ls), t, Pc({id}, map[], map[]))
  {
    Then(w, [], Leave(t));
    ls := [] + [Leave(t)] + [Begin(t, {id})];
    Then(w, [] + [Leave(t)], Begin(t, {id}));
  }

  // It reads a row without a key.
  lemma ReadsEarly(w: World, t: nat, id: string) returns (ls: seq<Label>)
    requires Inv(w) && Exposed(w, id)
    ensures OnlyAt(w, Exec(w, ls), t, Pc({id}, map[id := Look("", false)], map[]))
  {
    var ls1 := BeginsAnew(w, t, id);
    ls := ls1 + [ReadRow(t, id)];
    Then(w, ls1, ReadRow(t, id));
    if id in w.rows { assert RowOk(w, id); }
  }

  // The run goes on to enter its key.
  lemma Enters(w: World, t: nat, id: string) returns (ls: seq<Label>)
    requires Inv(w) && Exposed(w, id)
    ensures
      var w' := Exec(w, ls);
      Linked(w', id) && w'.handlers == w.handlers
  {
    ls := [];
    var w' := w;
    if id !in w'.stages {
      Then(w, ls, StartRun(id));
      ls, w' := ls + [StartRun(id)], Next(w', StartRun(id));
    }
    if w'.stages[id] == Fresh {
      Then(w, ls, PutBlob(id, true, true));
      ls, w' := ls + [PutBlob(id, true, true)], Next(w', PutBlob(id, true, true));
    }
    Then(w, ls, EnterKey(id, 0, true));
    ls, w' := ls + [EnterKey(id, 0, true)], Next(w', EnterKey(id, 0, true));
  }

  const NOTHING_DELETED := R.RunFailed(false)

  // What is left of ids once x is done too.
  lemma FewerLeft(ids: set<string>, done: set<string>, x: string)
    requires x in ids - done
    ensures |ids - (done + {x})| < |ids - done|
  {
    assert ids - done == (ids - (done + {x})) + {x};
  }

  lemma ReadsOne(w: World, t: nat, x: string) returns (look: Look)
    requires Reads(w, t, x)
    ensures
      var pc := w.handlers[t];
      && OnlyAt(w, Next(w, ReadRow(t, x)), t, pc.(read := pc.read[x := look]))
      && pc.read[x := look].Keys == pc.read.Keys + {x}
  {
    look := Next(w, ReadRow(t, x)).handlers[t].read[x];
  }

  lemma TriesOne(w: World, t: nat, x: string)
    requires Deletes(w, t, x)
    ensures
      var pc := w.handlers[t];
      && OnlyAt(w, Next(w, DeleteBlob(t, x, NOTHING_DELETED)), t, pc.(replies := pc.replies[x := NOTHING_DELETED]))
      && pc.replies[x := NOTHING_DELETED].Keys == pc.replies.Keys + {x}
  {
  }

  // A handler reads what it has not read yet.
  lemma {:induction false} FinishesReading(w: World, t: nat) returns (ls: seq<Label>, pc: Pc)
    requires t in w.handlers && w.handlers[t].read.Keys <= w.handlers[t].ids
    ensures OnlyAt(w, Exec(w, ls), t, pc) && AllRead(pc)
    ensures pc.ids == w.handlers[t].ids && pc.replies == w.handlers[t].replies
    ensures forall x :: x in w.handlers[t].read ==> pc.read[x] == w.handlers[t].read[x]
    decreases |w.handlers[t].ids - w.handlers[t].read.Keys|
  {
    pc := w.handlers[t];
    if pc.ids <= pc.read.Keys {
      ls := [];
    } else {
      var x :| x in pc.ids && x !in pc.read;
      var look := ReadsOne(w, t, x);
      FewerLeft(pc.ids, pc.read.Keys, x);
      var rest;
      rest, pc := FinishesReading(Next(w, ReadRow(t, x)), t);
      ls := [ReadRow(t, x)] + rest;
      assert ls[1..] == rest;
    }
  }

  // And tries what it has not tried yet, with nothing deleted.
  lemma {:induction false} FinishesTrying(w: World, t: nat) returns (ls: seq<Label>, pc: Pc)
    requires t in w.handlers && AllRead(w.handlers[t])
    ensures OnlyAt(w, Exec(w, ls), t, pc)
    ensures pc.ids == w.handlers[t].ids && pc.read == w.handlers[t].read
    ensures forall x :: x in pc.ids && pc.read[x].key != "" ==> x in pc.replies
    ensures forall x :: x in pc.read && pc.read[x].key == "" ==>
      (x in pc.replies <==> x in w.handlers[t].replies)
    decreases |w.handlers[t].ids - w.handlers[t].replies.Keys|
  {
    pc := w.handlers[t];
    if forall x :: x in pc.ids && pc.read[x].key != "" ==> x in pc.replies {
      ls := [];
    } else {
      var x :| x in pc.ids && pc.read[x].key != "" && x !in pc.replies;
      var l := DeleteBlob(t, x, NOTHING_DELETED);
      TriesOne(w, t, x);
      FewerLeft(pc.ids, pc.replies.Keys, x);
      var rest;
      rest, pc := FinishesTrying(Next(w, l), t);
      ls := [l] + rest;
      assert ls[1..] == rest;
    }
  }

  // So a run yet to enter its key is orphaned by a handler that looks now.
  lemma ExposedOrphans(w: World, t: nat, id: string) returns (ls: seq<Label>)
    requires Inv(w) && Exposed(w, id)
    ensures OrphansAfter(w, ls, t, id, true)
  {
    var ls1 := ReadsEarly(w, t, id);
    var w1 := Exec(w, ls1);
    InvHolds(w, ls1);
    var ls2 := Enters(w1, t, id);
    ls := ls1 + ls2;
    ExecAppend(w, ls1, ls2);
    assert MayClear(Exec(w1, ls2).handlers[t], id);
  }

  // A handler with an early read goes on to clear the row of a blob by now linked.
  lemma EarlyReadOrphans(w: World, t: nat, id: string) returns (ls: seq<Label>)
    requires Inv(w) && Linked(w, id) && ReadEarly(w, t, id)
    ensures OrphansAfter(w, ls, t, id, true)
  {
    KeysDiffer(id, id);
    assert LookOk(w, w.handlers[t], id);
    var ls1, pc1 := FinishesReading(w, t);
    var ls2, pc2 := FinishesTrying(Exec(w, ls1), t);
    ls := ls1 + ls2;
    ExecAppend(w, ls1, ls2);
    assert MayClear(pc2, id) && id !in pc2.replies;
  }

  // A handler from which a failed delete is hidden orphans a linked blob too.
  lemma HiddenFailureOrphans(w: World, t: nat, id: string) returns (ls: seq<Label>)
    requires Linked(w, id)
    ensures OrphansAfter(w, ls, t, id, false)
  {
    KeysDiffer(id, id);
    var ls1 := BeginsAnew(w, t, id);
    Then(w, ls1, ReadRow(t, id));
    var ls2 := ls1 + [ReadRow(t, id)];
    Then(w, ls2, DeleteBlob(t, id, R.Reported(false)));
    ls := ls2 + [DeleteBlob(t, id, R.Reported(false))];
    assert MayClear(Exec(w, ls).handlers[t], id);
  }

  // From every reachable state, a handler, begun or not, can still orphan a blob if
  // and only if the key of its row is yet to be entered, or it is entered and the
  // handler read the row before that; and with failed deletes hidden from handlers,
  // if and only if the row leads to a stored blob or still will.
  lemma OrphansExactly(before: seq<Label>, t: nat, id: string, truly: bool)
    ensures
      var w := Exec(START, before);
      (exists ls :: OrphansAfter(w, ls, t, id, truly)) <==> AtRisk(w, t, id, truly)
  {
    var w := Exec(START, before);
    InvHolds(START, before);
    if ls :| OrphansAfter(w, ls, t, id, truly) {
      NoRiskNoOrphan(w, ls, t, id, truly);
    }
    if Exposed(w, id) {
      var ls := ExposedOrphans(w, t, id);
      assert OrphansAfter(w, ls, t, id, truly);
    } else if AtRisk(w, t, id, truly) {
      var ls := [];
      if truly { ls := EarlyReadOrphans(w, t, id); } else { ls := HiddenFailureOrphans(w, t, id); }
      assert OrphansAfter(w, ls, t, id, truly);
    }
  }

  // A row the sweep is offered has its key entered: a handler that had not read it
  // before that and is told truly does not orphan the blob, whatever interleaves.
  lemma OfferedInputsAreSafe(before: seq<Label>, ls: seq<Label>, cutoff: int, id: string, l: Label)
    requires id in R.ExpiredInputs(Exec(START, before).rows, cutoff)
    requires l.ClearRow? && !ReadEarly(Exec(START, before), l.t, id)
    requires ToldTruly(Exec(Exec(START, before), ls), l.t, id)
    ensures !Orphans(Exec(Exec(START, before), ls), l, id)
  {
    var w := Exec(START, before);
    InvHolds(START, before);
    assert RowOk(w, id) && !AtRisk(w, l.t, id, true);
    OrphansExactly(before, l.t, id, true);
    assert !OrphansAfter(w, ls, l.t, id, true);
    InvHolds(w, ls);
    if Orphans(Exec(w, ls), l, id) { OrphanStep(Exec(w, ls), l, id); }
  }
}
