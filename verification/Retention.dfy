// Retention of persisted run inputs and offloaded resume states: the delete
// verbs of the per-run IPC server (pkg/ipc/server.go) over the run table
// (pkg/registry/registry.go) and the two blob stores. A storage task may fail to
// run, or run and report a failure in its reply; InputStore.Delete looks only at
// the former, ResumeStateStore.Delete at both.
module Retention {
  import opened Records

  datatype Phase = Running | Suspended | Ended

  // An empty key stands for a NULL or empty column.
  datatype Row = Row(phase: Phase, pinned: bool, inputKey: string, inputAt: int, resumeKey: string, resumeAt: int)

  type Rows = map<string, Row>

  // What running the storage task came to. A run that failed may have removed
  // the blob all the same.
  datatype Reply = RunFailed(removed: bool) | Reported(ok: bool)

  predicate Removes(reply: Reply) {
    if reply.RunFailed? then reply.removed else reply.ok
  }

  function WithoutInput(r: Row): Row { r.(inputKey := "", inputAt := 0) }

  function WithoutResume(r: Row): Row { r.(resumeKey := "", resumeAt := 0) }

  // The rows a retention sweep is offered.
  function ExpiredInputs(rows: Rows, before: int): set<string> {
    set id | id in rows && rows[id].inputKey != "" && rows[id].inputAt < before && !rows[id].pinned
  }

  function ExpiredResumeStates(rows: Rows, before: int): set<string> {
    set id | id in rows && rows[id].resumeKey != "" && rows[id].resumeAt < before && rows[id].phase != Suspended
  }

  // In columns: offered is what has a key, is older than the given time, and is not
  // pinned, or not suspended.
  lemma OfferedExactly(rows: Rows, before: int, id: string)
    ensures id in ExpiredInputs(rows, before) <==>
      id in rows && rows[id].inputKey != "" && rows[id].inputAt < before && !rows[id].pinned
    ensures id in ExpiredResumeStates(rows, before) <==>
      id in rows && rows[id].resumeKey != "" && rows[id].resumeAt < before && !rows[id].phase.Suspended?
  {
  }

  datatype Answer =
    | Done(cleared: seq<string>, failed: set<string>)
    | Refused
    | DeleteFailed
    | ClearFailed

  const MAX_DELETE_BATCH := 5000
  const MAX_IN_CLAUSE := 500

  // ---- What a sweep may do --------------------------------------------------

  // Only inputs are cleared, and each only when its blob is gone.
  predicate Sweeps(rows: Rows, blobs: set<string>, rows': Rows, blobs': set<string>) {
    && rows'.Keys == rows.Keys && blobs' <= blobs
    && forall id :: id in rows ==>
         rows'[id] == rows[id] || (rows'[id] == WithoutInput(rows[id]) && rows[id].inputKey !in blobs')
  }

  ghost predicate NoOrphans(rows: Rows, blobs: set<string>) {
    forall k :: k in blobs ==> k != "" && Referenced(rows, k)
  }

  ghost predicate Referenced(rows: Rows, k: string) {
    exists id :: id in rows && rows[id].inputKey == k
  }

  lemma SweepsKeepReferences(rows: Rows, blobs: set<string>, rows': Rows, blobs': set<string>)
    requires NoOrphans(rows, blobs) && Sweeps(rows, blobs, rows', blobs')
    ensures NoOrphans(rows', blobs')
  {
    forall k | k in blobs' ensures Referenced(rows', k) {
      assert Referenced(rows, k);
      var id :| id in rows && rows[id].inputKey == k;
      assert rows'[id] == rows[id];
    }
  }

  // ---- The verbs ------------------------------------------------------------

  // id is in a chunk, of 500 ids, whose UPDATE works.
  predicate Cleared(ids: seq<string>, clears: nat -> bool, id: string) {
    exists j :: 0 <= j < |ids| && ids[j] == id && clears(j / 500)
  }

  function Without(ids: seq<string>, failed: set<string>): (r: seq<string>)
    ensures forall id :: id in r <==> id in ids && id !in failed
    ensures |r| <= |ids|
  {
    if ids == [] then []
    else
      var rest := Without(ids[1..], failed);
      assert ids == [ids[0]] + ids[1..];
      if ids[0] in failed then rest else [ids[0]] + rest
  }

  lemma BatchSweeps(rows: Rows, blobs: set<string>, rows': Rows, blobs': set<string>,
                    kept: seq<string>, clears: nat -> bool, gone: set<string>)
    requires rows'.Keys == rows.Keys && blobs' == blobs - gone && "" !in blobs
    requires forall id :: id in rows ==>
      rows'[id] == if Cleared(kept, clears, id) then WithoutInput(rows[id]) else rows[id]
    requires forall id :: id in kept && id in rows && rows[id].inputKey != "" ==> rows[id].inputKey in gone
    ensures Sweeps(rows, blobs, rows', blobs')
  {
    forall id | id in rows && Cleared(kept, clears, id) ensures rows[id].inputKey !in blobs' {
      assert id in kept;
    }
  }

  lemma ChunkCleared(ids: seq<string>, clears: nat -> bool, done: nat, end: nat, chunk: nat)
    requires done == chunk * MAX_IN_CLAUSE && done < end <= |ids| && end <= done + MAX_IN_CLAUSE
    ensures forall j :: done <= j < end ==> j / MAX_IN_CLAUSE == chunk
    ensures forall id :: Cleared(ids[..end], clears, id) <==>
      Cleared(ids[..done], clears, id) || (clears(chunk) && id in ids[done..end])
  {
    forall id ensures Cleared(ids[..end], clears, id) <==>
      Cleared(ids[..done], clears, id) || (clears(chunk) && id in ids[done..end])
    {
      if Cleared(ids[..end], clears, id) {
        var j :| 0 <= j < end && ids[..end][j] == id && clears(j / MAX_IN_CLAUSE);
        if j < done { assert ids[..done][j] == id; } else { assert ids[done..end][j - done] == id; }
      }
      if Cleared(ids[..done], clears, id) {
        var j :| 0 <= j < done && ids[..done][j] == id && clears(j / MAX_IN_CLAUSE);
        assert ids[..end][j] == id;
      }
      if clears(chunk) && id in ids[done..end] {
        var j :| 0 <= j < end - done && ids[done..end][j] == id;
        assert ids[..end][done + j] == id && (done + j) / MAX_IN_CLAUSE == chunk;
      }
    }
  }

  class Server {
    const inputStore: bool
    const resumeStateStore: bool
    var rows: Rows
    var inputs: set<string>
    var resumes: set<string>

    constructor (inputStore: bool, resumeStateStore: bool)
      ensures this.inputStore == inputStore && this.resumeStateStore == resumeStateStore
      ensures rows == map[] && inputs == {} && resumes == {}
    {
      this.inputStore, this.resumeStateStore := inputStore, resumeStateStore;
      rows, inputs, resumes := map[], {}, {};
    }

    // InputStore.Delete: only a failed run is an error.
    method DeleteInputBlob(key: string, reply: Reply) returns (err: bool)
      modifies this`inputs
      ensures inputs == old(inputs) - if Removes(reply) then {key} else {}
      ensures err == reply.RunFailed?
    {
      if Removes(reply) { inputs := inputs - {key}; }
      err := reply.RunFailed?;
    }

    // ResumeStateStore.Delete: a reported failure is one too.
    method DeleteResumeBlob(key: string, reply: Reply) returns (err: bool)
      modifies this`resumes
      ensures resumes == old(resumes) - if Removes(reply) then {key} else {}
      ensures !err <==> reply == Reported(true)
    {
      if Removes(reply) { resumes := resumes - {key}; }
      err := reply.RunFailed? || !reply.ok;
    }

    // dicode.runs.delete_input
    method DeleteInput(runID: string, reply: Reply, clearOk: bool) returns (answer: Answer)
      modifies this`rows, this`inputs
      ensures
        var asks := runID != "" && runID in old(rows) && old(rows)[runID].inputKey != "" && inputStore;
        && answer == (if runID == "" || runID !in old(rows) then Refused
                      else if asks && reply.RunFailed? then DeleteFailed
                      else if clearOk then Done([runID], {})
                      else ClearFailed)
        && inputs == old(inputs) - (if asks && Removes(reply) then {old(rows)[runID].inputKey} else {})
      ensures rows == if answer.Done? then old(rows)[runID := old(rows)[runID].(inputKey := "", inputAt := 0)]
                      else old(rows)
      ensures answer.Done? ==> forall before :: runID !in ExpiredInputs(rows, before)
      // The blob outlives its row exactly without a store, or on a reported failure.
      ensures answer.Done? && old(rows)[runID].inputKey in old(inputs) && old(rows)[runID].inputKey != "" ==>
        (old(rows)[runID].inputKey in inputs <==> !inputStore || reply == Reported(false))
      ensures inputStore && reply != Reported(false) && "" !in old(inputs) ==>
        Sweeps(old(rows), old(inputs), rows, inputs)
    {
      if runID == "" || runID !in rows { return Refused; }
      var key := rows[runID].inputKey;
      if key != "" && inputStore {
        var err := DeleteInputBlob(key, reply);
        if err { return DeleteFailed; }
      }
      if !clearOk { return ClearFailed; }
      rows := rows[runID := WithoutInput(rows[runID])];
      return Done([runID], {});
    }

    // ClearRunInputs: every chunk is tried, whatever became of the others.
    method ClearRunInputs(ids: seq<string>, clears: nat -> bool) returns (ok: bool)
      modifies this`rows
      ensures rows.Keys == old(rows).Keys
      ensures forall id :: id in rows ==>
        rows[id] == if Cleared(ids, clears, id) then old(rows)[id].(inputKey := "", inputAt := 0) else old(rows)[id]
      ensures ok <==> forall j :: 0 <= j < |ids| ==> clears(j / 500)
      ensures ok ==> forall id :: id in ids && id in rows ==> rows[id].inputKey == ""
    {
      ok := true;
      var chunk, done := 0, 0;
      while done < |ids|
        invariant 0 <= done <= |ids| && (done < |ids| ==> done == chunk * MAX_IN_CLAUSE)
        invariant rows.Keys == old(rows).Keys
        invariant forall id :: id in rows ==>
          rows[id] == if Cleared(ids[..done], clears, id) then old(rows)[id].(inputKey := "", inputAt := 0)
                      else old(rows)[id]
        invariant ok <==> forall j :: 0 <= j < done ==> clears(j / 500)
      {
        var end := if done + MAX_IN_CLAUSE > |ids| then |ids| else done + MAX_IN_CLAUSE;
        ghost var before := rows;
        if clears(chunk) {
          rows := map id | id in rows :: if id in ids[done..end] then WithoutInput(rows[id]) else rows[id];
        } else {
          ok := false;
        }
        ChunkCleared(ids, clears, done, end, chunk);
        assert clears(done / MAX_IN_CLAUSE) == clears(chunk);
        done, chunk := end, chunk + 1;
      }
      assert ids[..done] == ids;
    }

    // dicode.runs.delete_inputs
    method DeleteInputs(runIDs: seq<string>, replies: string -> Reply, readOk: bool, clears: nat -> bool)
      returns (answer: Answer)
      modifies this`rows, this`inputs
      ensures
        var refused := runIDs == [] || |runIDs| > 5000 || (inputStore && !readOk);
        var asked := set id | id in runIDs && id in old(rows) && old(rows)[id].inputKey != "" && inputStore;
        var failed := set id | id in asked && replies(id).RunFailed?;
        var kept := Without(runIDs, failed);
        && (refused ==> answer == Refused && rows == old(rows) && inputs == old(inputs))
        && (!refused ==>
              && answer == (if forall j :: 0 <= j < |kept| ==> clears(j / 500) then Done(kept, failed)
                            else ClearFailed)
              && inputs == old(inputs) - (set id | id in asked && Removes(replies(id)) :: old(rows)[id].inputKey)
              && rows.Keys == old(rows).Keys
              && (forall id :: id in rows ==>
                    rows[id] == if Cleared(kept, clears, id) then old(rows)[id].(inputKey := "", inputAt := 0)
                                else old(rows)[id])
              && (answer.Done? ==> forall id :: id in kept && id in rows ==> rows[id].inputKey == "")
              // Failed rows are offered again.
              && (forall before :: failed * ExpiredInputs(old(rows), before) <= ExpiredInputs(rows, before)))
      ensures inputStore && (forall id :: id in runIDs ==> replies(id) != Reported(false)) && "" !in old(inputs) ==>
        Sweeps(old(rows), old(inputs), rows, inputs)
    {
      if runIDs == [] || |runIDs| > MAX_DELETE_BATCH { return Refused; }
      var failed: set<string> := {};
      ghost var asked := set id | id in runIDs && id in rows && rows[id].inputKey != "" && inputStore;
      if inputStore {
        if !readOk { return Refused; }
        var keyed := set id | id in runIDs && id in rows && rows[id].inputKey != "";
        assert keyed == asked;
        failed := DeleteInputBlobs(keyed, replies);
      }
      assert failed == set id | id in asked && replies(id).RunFailed?;
      ghost var gone := set id | id in asked && Removes(replies(id)) :: old(rows)[id].inputKey;
      assert inputs == old(inputs) - gone;
      var toClear := Without(runIDs, failed);
      var ok := ClearRunInputs(toClear, clears);
      if inputStore && (forall id :: id in runIDs ==> replies(id) != Reported(false)) && "" !in old(inputs) {
        BatchSweeps(old(rows), old(inputs), rows, inputs, toClear, clears, gone);
      }
      return if ok then Done(toClear, failed) else ClearFailed;
    }

    // The blobs of a batch, in no particular order.
    method DeleteInputBlobs(ids: set<string>, replies: string -> Reply) returns (failed: set<string>)
      requires forall id :: id in ids ==> id in rows
      modifies this`inputs
      ensures inputs == old(inputs) - (set id | id in ids && Removes(replies(id)) :: rows[id].inputKey)
      ensures failed == set id | id in ids && replies(id).RunFailed?
    {
      failed := {};
      var todo := ids;
      while todo != {}
        invariant todo <= ids
        invariant failed == set id | id in ids - todo && replies(id).RunFailed?
        invariant inputs == old(inputs) - (set id | id in ids - todo && Removes(replies(id)) :: rows[id].inputKey)
        decreases |todo|
      {
        var id :| id in todo;
        var err := DeleteInputBlob(rows[id].inputKey, replies(id));
        if err { failed := failed + {id}; }
        todo := todo - {id};
      }
    }

    // dicode.runs.delete_resume_state
    method DeleteResumeState(runID: string, reply: Reply, clearOk: bool) returns (answer: Answer)
      modifies this`rows, this`resumes
      ensures
        var found := runID != "" && runID in old(rows) && old(rows)[runID].phase != Suspended;
        var key := if found then old(rows)[runID].resumeKey else "";
        && answer == (if !found || (key != "" && !resumeStateStore) then Refused
                      else if key != "" && reply != Reported(true) then DeleteFailed
                      else if clearOk then Done([runID], {})
                      else ClearFailed)
        && resumes == old(resumes) - (if key != "" && resumeStateStore && Removes(reply) then {key} else {})
        && (answer.Done? ==> key !in resumes || key == "")
      ensures rows == if answer.Done? then old(rows)[runID := old(rows)[runID].(resumeKey := "", resumeAt := 0)]
                      else old(rows)
      ensures answer.Done? ==> forall before :: runID !in ExpiredResumeStates(rows, before)
    {
      if runID == "" || runID !in rows { return Refused; }
      if rows[runID].phase == Suspended { return Refused; }
      var key := rows[runID].resumeKey;
      if key != "" {
        if !resumeStateStore { return Refused; }
        var err := DeleteResumeBlob(key, reply);
        if err { return DeleteFailed; }
      }
      if !clearOk { return ClearFailed; }
      rows := rows[runID := WithoutResume(rows[runID])];
      return Done([runID], {});
    }
  }

  // ---- Any sequence of the verbs ----------------------------------------------

  datatype Call =
    | One(runID: string, reply: Reply, clearOk: bool)
    | Many(runIDs: seq<string>, replies: string -> Reply, readOk: bool, clears: nat -> bool)
    | Resumed(runID: string, reply: Reply, clearOk: bool)
    // what runs do in between; the key of an offloaded state is its own row's
    | Persist(runID: string, key: string, at: int)
    | Offload(runID: string, key: string, at: int)
    | End(runID: string)

  // No failed delete of an input is hidden in a reply; what is stored gets a key.
  predicate Honest(c: Call) {
    match c
    case One(_, reply, _) => reply != Reported(false)
    case Many(runIDs, replies, _, _) => forall id :: id in runIDs ==> replies(id) != Reported(false)
    case Persist(_, key, _) => key != ""
    case Offload(_, key, _) => key != ""
    case _ => true
  }

  ghost predicate Leads(rows: Rows, k: string) {
    exists id :: id in rows && rows[id].resumeKey == k
  }

  // Every offloaded state is the one of its own row, a running run has none, and a
  // suspended run's is there.
  ghost predicate StatesKept(rows: Rows, states: set<string>) {
    && (forall k :: k in states ==> k != "" && Leads(rows, k))
    && (forall i, j :: i in rows && j in rows && rows[i].resumeKey == rows[j].resumeKey != "" ==> i == j)
    && (forall id :: id in rows && rows[id].phase == Running ==> rows[id].resumeKey == "")
    && (forall id :: id in rows && rows[id].phase == Suspended && rows[id].resumeKey != "" ==>
          rows[id].resumeKey in states)
  }

  // The runs suspended all along have kept their columns.
  predicate ColumnsKept(rows: Rows, rows': Rows, ended: set<string>) {
    forall id :: id in rows && rows[id].phase == Suspended && id !in ended ==>
      && id in rows' && rows'[id].phase == Suspended
      && rows'[id].resumeKey == rows[id].resumeKey && rows'[id].resumeAt == rows[id].resumeAt
  }

  function EndedBy(calls: seq<Call>): set<string> {
    set i | 0 <= i < |calls| && calls[i].End? :: calls[i].runID
  }

  lemma SameInputs(rows: Rows, rows': Rows, blobs: set<string>)
    requires NoOrphans(rows, blobs) && rows'.Keys == rows.Keys
    requires forall id :: id in rows ==> rows'[id].inputKey == rows[id].inputKey
    ensures NoOrphans(rows', blobs)
  {
    forall k | k in blobs ensures Referenced(rows', k) {
      assert Referenced(rows, k);
      var id :| id in rows && rows[id].inputKey == k;
      assert id in rows' && rows'[id].inputKey == k;
    }
  }

  lemma StatesUntouched(rows: Rows, rows': Rows, states: set<string>)
    requires StatesKept(rows, states) && rows'.Keys == rows.Keys
    requires forall id :: id in rows ==>
      && rows'[id].phase == rows[id].phase
      && rows'[id].resumeKey == rows[id].resumeKey && rows'[id].resumeAt == rows[id].resumeAt
    ensures StatesKept(rows', states) && ColumnsKept(rows, rows', {})
  {
    forall k | k in states ensures Leads(rows', k) {
      assert Leads(rows, k);
      var id :| id in rows && rows[id].resumeKey == k;
      assert id in rows' && rows'[id].resumeKey == k;
    }
  }

  lemma SweepsKeep(rows: Rows, blobs: set<string>, rows': Rows, blobs': set<string>, states: set<string>)
    requires Sweeps(rows, blobs, rows', blobs') && NoOrphans(rows, blobs) && StatesKept(rows, states)
    ensures NoOrphans(rows', blobs') && StatesKept(rows', states) && ColumnsKept(rows, rows', {})
  {
    SweepsKeepReferences(rows, blobs, rows', blobs');
    assert forall id :: id in rows ==> rows'[id] == rows[id] || rows'[id] == WithoutInput(rows[id]);
    StatesUntouched(rows, rows', states);
  }

  // What delete_resume_state may do to both tables.
  lemma ResumedKeeps(rows: Rows, states: set<string>, rows': Rows, states': set<string>, id: string)
    requires StatesKept(rows, states) && rows'.Keys == rows.Keys
    requires rows' != rows || states' != states ==> id in rows && rows[id].phase != Suspended
    requires rows' == rows || rows' == rows[id := WithoutResume(rows[id])]
    requires states' == states || states' == states - {rows[id].resumeKey}
    requires rows' != rows ==> rows[id].resumeKey !in states'
    ensures StatesKept(rows', states') && ColumnsKept(rows, rows', {})
  {
    forall k | k in states' ensures Leads(rows', k) {
      assert Leads(rows, k);
      var i :| i in rows && rows[i].resumeKey == k;
      assert i in rows' && rows'[i].resumeKey == k;
    }
  }

  function Offloaded(r: Row, key: string, at: int): Row {
    r.(phase := Suspended, resumeKey := key, resumeAt := at)
  }

  lemma OffloadKeeps(rows: Rows, states: set<string>, id: string, key: string, at: int)
    requires StatesKept(rows, states) && id in rows && rows[id].phase == Running && key != ""
    requires forall x :: x in rows ==> rows[x].resumeKey != key
    ensures
      var rows' := rows[id := Offloaded(rows[id], key, at)];
      StatesKept(rows', states + {key}) && ColumnsKept(rows, rows', {})
  {
    var rows' := rows[id := Offloaded(rows[id], key, at)];
    assert rows'[id].resumeKey == key;
    forall k | k in states ensures Leads(rows', k) {
      assert Leads(rows, k);
      var i :| i in rows && rows[i].resumeKey == k;
      assert i in rows' && rows'[i].resumeKey == k;
    }
  }

  lemma EndKeeps(rows: Rows, states: set<string>, id: string)
    requires StatesKept(rows, states) && id in rows
    ensures
      var rows' := rows[id := rows[id].(phase := Ended)];
      StatesKept(rows', states) && ColumnsKept(rows, rows', {id})
  {
    var rows' := rows[id := rows[id].(phase := Ended)];
    forall k | k in states ensures Leads(rows', k) {
      assert Leads(rows, k);
      var i :| i in rows && rows[i].resumeKey == k;
      assert i in rows' && rows'[i].resumeKey == k;
    }
  }

  lemma PersistKeepsReferences(rows: Rows, blobs: set<string>, id: string, key: string, at: int)
    requires NoOrphans(rows, blobs) && id in rows && rows[id].inputKey == "" && key != ""
    ensures NoOrphans(rows[id := rows[id].(inputKey := key, inputAt := at)], blobs + {key})
  {
    var rows' := rows[id := rows[id].(inputKey := key, inputAt := at)];
    assert rows'[id].inputKey == key;
    forall k | k in blobs ensures Referenced(rows', k) {
      assert Referenced(rows, k);
      var j :| j in rows && rows[j].inputKey == k;
      assert rows'[j].inputKey == k;
    }
  }

  // The call gives its run a key.
  predicate StoresInput(c: Call, id: string) {
    c.Persist? && c.runID == id
  }

  predicate StoresState(c: Call, id: string) {
    c.Offload? && c.runID == id
  }

  // A row answered as cleared is without its key, and none gets one but by a store.
  predicate Follows(rows: Rows, call: Call, answer: Answer, rows': Rows) {
    && rows'.Keys == rows.Keys
    && (forall id :: id in rows ==>
          && (rows[id].inputKey == "" && !StoresInput(call, id) ==> rows'[id].inputKey == "")
          && (rows[id].resumeKey == "" && !StoresState(call, id) ==> rows'[id].resumeKey == ""))
    && (answer.Done? && call.One? ==> call.runID in rows' && rows'[call.runID].inputKey == "")
    && (answer.Done? && call.Many? ==> forall id :: id in answer.cleared && id in rows' ==> rows'[id].inputKey == "")
    && (answer.Done? && call.Resumed? ==> call.runID in rows' && rows'[call.runID].resumeKey == "")
  }

  // Call i answered that the input of id is cleared, and no later call stores one.
  predicate InputGone(calls: seq<Call>, answers: seq<Answer>, i: nat, id: string)
    requires i < |answers| <= |calls|
  {
    && answers[i].Done?
    && ((calls[i].One? && calls[i].runID == id) || (calls[i].Many? && id in answers[i].cleared))
    && forall j :: i < j < |answers| ==> !StoresInput(calls[j], id)
  }

  predicate StateGone(calls: seq<Call>, answers: seq<Answer>, i: nat, id: string)
    requires i < |answers| <= |calls|
  {
    && answers[i].Done? && calls[i].Resumed? && calls[i].runID == id
    && forall j :: i < j < |answers| ==> !StoresState(calls[j], id)
  }

  // What is gone has no key.
  ghost predicate StaysCleared(rows: Rows, calls: seq<Call>, answers: seq<Answer>)
    requires |answers| <= |calls|
  {
    && (forall i: nat, id ::
          i < |answers| && id in rows && InputGone(calls, answers, i, id) ==> rows[id].inputKey == "")
    && (forall i: nat, id ::
          i < |answers| && id in rows && StateGone(calls, answers, i, id) ==> rows[id].resumeKey == "")
  }

  lemma ClearedSoFar(rows: Rows, rows': Rows, calls: seq<Call>, answers: seq<Answer>, answer: Answer)
    requires |answers| < |calls| && StaysCleared(rows, calls, answers)
    requires Follows(rows, calls[|answers|], answer, rows')
    ensures StaysCleared(rows', calls, answers + [answer])
  {
    var longer, n := answers + [answer], |answers|;
    forall i: nat, id | i <= n && id in rows' && InputGone(calls, longer, i, id) ensures rows'[id].inputKey == "" {
      if i < n { assert InputGone(calls, answers, i, id) && !StoresInput(calls[n], id); }
    }
    forall i: nat, id | i <= n && id in rows' && StateGone(calls, longer, i, id) ensures rows'[id].resumeKey == "" {
      if i < n { assert StateGone(calls, answers, i, id) && !StoresState(calls[n], id); }
    }
  }

  method RunInputVerb(server: Server, call: Call) returns (answer: Answer)
    requires call.One? || call.Many? || call.Persist?
    requires server.inputStore && NoOrphans(server.rows, server.inputs)
    requires StatesKept(server.rows, server.resumes) && Honest(call)
    modifies server
    ensures NoOrphans(server.rows, server.inputs)
    ensures StatesKept(server.rows, server.resumes)
    ensures ColumnsKept(old(server.rows), server.rows, {})
    ensures Follows(old(server.rows), call, answer, server.rows)
  {
    answer := Refused;
    match call {
      case One(runID, reply, clearOk) =>
        answer := server.DeleteInput(runID, reply, clearOk);
        SweepsKeep(old(server.rows), old(server.inputs), server.rows, server.inputs, server.resumes);
      case Many(runIDs, replies, readOk, clears) =>
        answer := server.DeleteInputs(runIDs, replies, readOk, clears);
        SweepsKeep(old(server.rows), old(server.inputs), server.rows, server.inputs, server.resumes);
      case Persist(runID, key, at) =>
        if runID in server.rows && server.rows[runID].inputKey == "" {
          server.inputs := server.inputs + {key};
          server.rows := server.rows[runID := server.rows[runID].(inputKey := key, inputAt := at)];
          PersistKeepsReferences(old(server.rows), old(server.inputs), runID, key, at);
          StatesUntouched(old(server.rows), server.rows, server.resumes);
        }
    }
  }

  method RunResumeVerb(server: Server, call: Call) returns (answer: Answer)
    requires call.Resumed? || call.Offload? || call.End?
    requires server.inputStore && NoOrphans(server.rows, server.inputs)
    requires StatesKept(server.rows, server.resumes) && Honest(call)
    modifies server
    ensures NoOrphans(server.rows, server.inputs)
    ensures StatesKept(server.rows, server.resumes)
    ensures ColumnsKept(old(server.rows), server.rows, if call.End? then {call.runID} else {})
    ensures Follows(old(server.rows), call, answer, server.rows)
  {
    answer := Refused;
    match call {
      case Resumed(runID, reply, clearOk) =>
        answer := server.DeleteResumeState(runID, reply, clearOk);
        ResumedKeeps(old(server.rows), old(server.resumes), server.rows, server.resumes, runID);
        SameInputs(old(server.rows), server.rows, server.inputs);
      case Offload(runID, key, at) =>
        if runID in server.rows && server.rows[runID].phase == Running
           && forall id :: id in server.rows ==> server.rows[id].resumeKey != key {
          server.resumes := server.resumes + {key};
          server.rows := server.rows[runID := Offloaded(server.rows[runID], key, at)];
          OffloadKeeps(old(server.rows), old(server.resumes), runID, key, at);
          SameInputs(old(server.rows), server.rows, server.inputs);
        }
      case End(runID) =>
        if runID in server.rows {
          server.rows := server.rows[runID := server.rows[runID].(phase := Ended)];
          EndKeeps(old(server.rows), server.resumes, runID);
          SameInputs(old(server.rows), server.rows, server.inputs);
        }
    }
  }

  // The three verbs, called one after the other in any order, never leave a blob of
  // either kind no row leads to, and take nothing from a suspended run; and what they
  // answered as cleared is offered to no later sweep until it is stored again.
  method RunVerbs(server: Server, calls: seq<Call>) returns (answers: seq<Answer>)
    requires server.inputStore && NoOrphans(server.rows, server.inputs)
    requires StatesKept(server.rows, server.resumes)
    requires forall i :: 0 <= i < |calls| ==> Honest(calls[i])
    modifies server
    ensures NoOrphans(server.rows, server.inputs)
    ensures StatesKept(server.rows, server.resumes)
    ensures ColumnsKept(old(server.rows), server.rows, EndedBy(calls))
    ensures |answers| == |calls|
    ensures forall i: nat, id, before :: i < |calls| ==>
      && (InputGone(calls, answers, i, id) ==> id !in ExpiredInputs(server.rows, before))
      && (StateGone(calls, answers, i, id) ==> id !in ExpiredResumeStates(server.rows, before))
  {
    answers := [];
    for i := 0 to |calls|
      invariant NoOrphans(server.rows, server.inputs)
      invariant StatesKept(server.rows, server.resumes)
      invariant ColumnsKept(old(server.rows), server.rows, EndedBy(calls))
      invariant |answers| == i && StaysCleared(server.rows, calls, answers)
    {
      ghost var before := server.rows;
      var answer;
      if calls[i].One? || calls[i].Many? || calls[i].Persist? {
        answer := RunInputVerb(server, calls[i]);
      } else {
        answer := RunResumeVerb(server, calls[i]);
      }
      assert calls[i].End? ==> calls[i].runID in EndedBy(calls);
      ClearedSoFar(before, server.rows, calls, answers, answer);
      answers := answers + [answer];
    }
  }

  // ---- delete_resume_state beside a run that suspends -----------------------

  // The verb reads the row, deletes the blob and clears the columns in separate
  // steps; the clearing UPDATE does not look at the status again.
  datatype Pc = Deleting(id: string, key: string, seen: Phase) | Clearing(id: string, seen: Phase)

  datatype World = World(rows: Rows, blobs: set<string>, handlers: map<nat, Pc>)

  datatype Label =
    | GetRun(t: nat, id: string)
    | DeleteBlob(t: nat, reply: Reply)
    | Clear(t: nat, ok: bool)
    | Insert(id: string)
    | Suspend(id: string, key: string, at: int)     // an empty key: state kept inline
    | Leave(id: string)

  function Next(w: World, l: Label): World {
    match l
    case GetRun(t, id) =>
      if t in w.handlers || id !in w.rows || w.rows[id].phase == Suspended then w
      else
        var r := w.rows[id];
        var pc := if r.resumeKey == "" then Clearing(id, r.phase) else Deleting(id, r.resumeKey, r.phase);
        w.(handlers := w.handlers[t := pc])
    case DeleteBlob(t, reply) =>
      if t !in w.handlers || !w.handlers[t].Deleting? then w
      else
        var pc := w.handlers[t];
        w.(blobs := w.blobs - (if Removes(reply) then {pc.key} else {}),
           handlers := if reply == Reported(true) then w.handlers[t := Clearing(pc.id, pc.seen)] else w.handlers - {t})
    case Clear(t, ok) =>
      if t !in w.handlers || !w.handlers[t].Clearing? then w
      else
        var id := w.handlers[t].id;
        w.(rows := if ok && id in w.rows then w.rows[id := WithoutResume(w.rows[id])] else w.rows,
           handlers := w.handlers - {t})
    case Insert(id) =>
      if id in w.rows then w else w.(rows := w.rows[id := Row(Running, false, "", 0, "", 0)])
    case Suspend(id, key, at) =>
      if id !in w.rows || w.rows[id].phase != Running then w
      else
        w.(rows := w.rows[id := w.rows[id].(phase := Suspended, resumeKey := key, resumeAt := at)],
           blobs := if key == "" then w.blobs else w.blobs + {key})
    case Leave(id) =>
      if id !in w.rows || w.rows[id].phase == Ended then w
      else w.(rows := w.rows[id := w.rows[id].(phase := Ended)])
  }

  function Exec(w: World, ls: seq<Label>): World
    decreases |ls|
  {
    if ls == [] then w else Exec(Next(w, ls[0]), ls[1..])
  }

  // Run without interruption, the steps are the verb: they leave the rows and the
  // blobs as the method does.
  lemma StepsOfDeleteResumeState(w: World, t: nat, id: string, reply: Reply, ok: bool)
    requires t !in w.handlers
    ensures
      var w' := Next(Next(Next(w, GetRun(t, id)), DeleteBlob(t, reply)), Clear(t, ok));
      var found := id in w.rows && !w.rows[id].phase.Suspended?;
      var key := if found then w.rows[id].resumeKey else "";
      && w'.handlers == w.handlers
      && w'.blobs ==
           w.blobs - (if key != "" && (reply == RunFailed(true) || reply == Reported(true)) then {key} else {})
      && w'.rows == if found && (key == "" || reply == Reported(true)) && ok
                    then w.rows[id := w.rows[id].(resumeKey := "", resumeAt := 0)] else w.rows
  {
    var w1 := Next(w, GetRun(t, id));
    if t in w1.handlers {
      assert w1.handlers - {t} == w.handlers;
      if w1.handlers[t].Deleting? {
        var w2 := Next(w1, DeleteBlob(t, reply));
        assert w2.handlers - {t} == w.handlers;
      }
    }
  }

  // A row with an offloaded state is not running, and what a handler saw ended
  // has ended.
  ghost predicate Inv(w: World) {
    && (forall id :: id in w.rows && w.rows[id].phase == Running ==> w.rows[id].resumeKey == "")
    && (forall t :: t in w.handlers ==>
          var pc := w.handlers[t];
          && pc.id in w.rows && pc.seen != Suspended
          && (pc.seen == Ended ==> w.rows[pc.id].phase == Ended)
          && (pc.Deleting? ==> pc.seen == Ended))
  }

  const START := World(map[], {}, map[])

  lemma InvStep(w: World, l: Label)
    requires Inv(w)
    ensures Inv(Next(w, l))
  {
    match l
    case GetRun(t, id) =>
    case DeleteBlob(t, reply) =>
    case Clear(t, ok) => assert Inv(Next(w, l));
    case Insert(id) =>
    case Suspend(id, key, at) =>
    case Leave(id) =>
  }

  lemma {:induction false} InvHolds(w: World, ls: seq<Label>)
    requires Inv(w)
    ensures Inv(Exec(w, ls))
    decreases |ls|
  {
    if ls != [] {
      InvStep(w, ls[0]);
      InvHolds(Next(w, ls[0]), ls[1..]);
    }
  }

  // The clearing step is about to take a live state from a suspended run.
  predicate TakesLiveState(w: World, t: nat) {
    && t in w.handlers && w.handlers[t].Clearing? && w.handlers[t].id in w.rows
    && w.rows[w.handlers[t].id].phase == Suspended
  }

  // That happens only to a handler that read the row while the run was running;
  // one that read it ended never clears a suspended run.
  lemma OnlyAReadOfARunningRunTakesLiveState(ls: seq<Label>, t: nat)
    requires TakesLiveState(Exec(START, ls), t)
    ensures Exec(START, ls).handlers[t].seen == Running
  {
    InvHolds(START, ls);
  }

  // So the sweep is safe whatever happens beside it: a row it is offered has
  // ended, and still has when a handler reads it later.
  lemma {:induction false} OfferedRowsHaveEnded(w: World, ls: seq<Label>, before: int, id: string)
    requires Inv(w) && id in ExpiredResumeStates(w.rows, before)
    ensures id in Exec(w, ls).rows && Exec(w, ls).rows[id].phase == Ended
    decreases |ls|
  {
    EndedStays(w, ls, id);
  }

  lemma {:induction false} EndedStays(w: World, ls: seq<Label>, id: string)
    requires id in w.rows && w.rows[id].phase == Ended
    ensures id in Exec(w, ls).rows && Exec(w, ls).rows[id].phase == Ended
    decreases |ls|
  {
    if ls != [] { EndedStays(Next(w, ls[0]), ls[1..], id); }
  }

  // After ls, the clearing step of t takes the offloaded state of a suspended run: the
  // row led to it before the step, and does not after it.
  predicate LosesStateAfter(w: World, ls: seq<Label>, t: nat, id: string) {
    var before := Exec(w, ls);
    var after := Next(before, Clear(t, true));
    && id in before.rows && before.rows[id].phase == Suspended && before.rows[id].resumeKey != ""
    && id in after.rows && after.rows[id].phase == Suspended && after.rows[id].resumeKey == ""
  }

  // The run may still suspend, or it has and t had read the row before that.
  predicate AtRisk(w: World, t: nat, id: string) {
    || id !in w.rows
    || w.rows[id].phase == Running
    || (w.rows[id].phase == Suspended && w.rows[id].resumeKey != ""
        && t in w.handlers && w.handlers[t].Clearing? && w.handlers[t].id == id)
  }

  lemma RiskDoesNotArise(w: World, l: Label, t: nat, id: string)
    requires Inv(w) && !AtRisk(w, t, id)
    ensures !AtRisk(Next(w, l), t, id)
  {
    match l
    case GetRun(u, x) =>
    case DeleteBlob(u, reply) =>
    case Clear(u, ok) =>
    case Insert(x) =>
    case Suspend(x, key, at) =>
    case Leave(x) =>
  }

  lemma {:induction false} NoRiskNoLoss(w: World, ls: seq<Label>, t: nat, id: string)
    requires Inv(w) && LosesStateAfter(w, ls, t, id)
    ensures AtRisk(w, t, id)
    decreases |ls|
  {
    if ls != [] {
      InvStep(w, ls[0]);
      NoRiskNoLoss(Next(w, ls[0]), ls[1..], t, id);
      if !AtRisk(w, t, id) { RiskDoesNotArise(w, ls[0], t, id); }
    }
  }

  lemma {:induction false} ExecAppend(w: World, a: seq<Label>, b: seq<Label>)
    ensures Exec(w, a + b) == Exec(Exec(w, a), b)
    decreases |a|
  {
    if a == [] {
      assert a + b == b;
    } else {
      assert (a + b)[0] == a[0] && (a + b)[1..] == a[1..] + b;
      ExecAppend(Next(w, a[0]), a[1..], b);
    }
  }

  lemma Then(w: World, ls: seq<Label>, l: Label)
    ensures Exec(w, ls + [l]) == Next(Exec(w, ls), l)
  {
    ExecAppend(w, ls, [l]);
    var w' := Exec(w, ls);
    assert [l][1..] == [];
    assert Exec(Next(w', l), []) == Next(w', l);
  }

  // Whatever t is doing, it can be done with it and the rows as they are.
  lemma Frees(w: World, t: nat) returns (ls: seq<Label>)
    ensures t !in Exec(w, ls).handlers && Exec(w, ls).rows == w.rows
  {
    ls := [];
    if t in w.handlers {
      var l := if w.handlers[t].Deleting? then DeleteBlob(t, RunFailed(false)) else Clear(t, false);
      Then(w, [], l);
      ls := [] + [l];
    }
  }

  // A handler that reads a running row reaches the state of the suspension that follows.
  lemma RunningRowLosesItsState(w: World, t: nat, id: string, key: string, at: int) returns (ls: seq<Label>)
    requires Inv(w) && (id !in w.rows || w.rows[id].phase == Running) && key != ""
    ensures LosesStateAfter(w, ls, t, id) && Exec(w, ls).rows[id].resumeKey == key && key in Exec(w, ls).blobs
  {
    ls := Frees(w, t);
    InvHolds(w, ls);
    if id !in w.rows {
      Then(w, ls, Insert(id));
      ls := ls + [Insert(id)];
    }
    InvHolds(w, ls);
    Then(w, ls, GetRun(t, id));
    ls := ls + [GetRun(t, id)];
    Then(w, ls, Suspend(id, key, at));
    ls := ls + [Suspend(id, key, at)];
  }

  // From every reachable state, a handler, begun or not, can still clear the state of
  // a suspended run from under it if and only if the run is yet to be inserted, is
  // running, or has suspended with the handler already past its read.
  lemma LiveStateLostExactly(before: seq<Label>, t: nat, id: string)
    ensures
      var w := Exec(START, before);
      (exists ls :: LosesStateAfter(w, ls, t, id)) <==> AtRisk(w, t, id)
  {
    var w := Exec(START, before);
    InvHolds(START, before);
    if ls :| LosesStateAfter(w, ls, t, id) { NoRiskNoLoss(w, ls, t, id); }
    if id !in w.rows || w.rows[id].phase == Running {
      var ls := RunningRowLosesItsState(w, t, id, "k", 0);
      assert LosesStateAfter(w, ls, t, id);
    } else if AtRisk(w, t, id) {
      assert Exec(w, []) == w && LosesStateAfter(w, [], t, id);
    }
  }
}
