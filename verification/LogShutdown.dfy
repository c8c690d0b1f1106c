// The per-run IPC server's log buffer and the order in which Stop winds the
// server down (pkg/ipc/server.go).
module LogShutdown {
  import opened Picked

  const FLUSH_SIZE := 50
  const MAX_SIZE := 1000

  // One log line, with the handler goroutine that buffered it. Its timestamp is
  // not part of it: an insert of a single row takes a new one.
  datatype Entry = Entry(handler: nat, level: string, message: string)

  function Whitelisted(level: string): string {
    if level in ["debug", "info", "warn", "error"] then level else "info"
  }

  // The four levels are kept, anything else is information.
  lemma WhitelistedExactly(level: string)
    ensures Whitelisted(level) == level <==>
      level == "debug" || level == "info" || level == "warn" || level == "error"
    ensures Whitelisted(level) == level || Whitelisted(level) == "info"
  {
  }

  // ---- Writing a batch ------------------------------------------------------

  // How the database reacts: whether the bulk transaction commits and, if not,
  // for which positions of the batch the single insert fails.
  datatype Writes = Writes(bulkOk: bool, failing: set<nat>)

  // What flushBatch stores of batch; the rest is lost.
  function StoredOf(batch: seq<Entry>, w: Writes): multiset<Entry> {
    if w.bulkOk then multiset(batch) else SavedRows(batch, w.failing, |batch|)
  }

  function SavedRows(batch: seq<Entry>, failing: set<nat>, n: nat): multiset<Entry>
    requires n <= |batch|
  {
    if n == 0 then multiset{}
    else SavedRows(batch, failing, n - 1) + (if n - 1 in failing then multiset{} else multiset{batch[n - 1]})
  }

  function LostOf(batch: seq<Entry>, w: Writes): multiset<Entry> {
    multiset(batch) - StoredOf(batch, w)
  }

  lemma {:induction false} SavedRowsAreOfBatch(batch: seq<Entry>, failing: set<nat>, n: nat)
    requires n <= |batch|
    ensures SavedRows(batch, failing, n) <= multiset(batch[..n])
    ensures failing == {} ==> SavedRows(batch, failing, n) == multiset(batch[..n])
  {
    if n > 0 {
      SavedRowsAreOfBatch(batch, failing, n - 1);
      assert batch[..n] == batch[..n - 1] + [batch[n - 1]];
      assert multiset(batch[..n]) == multiset(batch[..n - 1]) + multiset{batch[n - 1]};
    }
  }

  // Of the first n rows those, and only those, are kept whose own insert works.
  ghost predicate Kept(batch: seq<Entry>, failing: set<nat>, n: nat, at: seq<nat>, kept: seq<Entry>)
    requires n <= |batch|
  {
    && Picks(at, batch[..n], kept)
    && forall i: nat :: i in at <==> i < n && i !in failing
  }

  lemma OneMoreKept(batch: seq<Entry>, failing: set<nat>, n: nat, at: seq<nat>, kept: seq<Entry>)
    requires n < |batch| && Kept(batch, failing, n, at, kept)
    ensures if n in failing then Kept(batch, failing, n + 1, at, kept)
            else Kept(batch, failing, n + 1, at + [n], kept + [batch[n]])
  {
    assert batch[..n + 1] == batch[..n] + [batch[n]];
    PicksLater(at, batch[..n], kept, batch[n]);
  }

  lemma OneMoreSaved(batch: seq<Entry>, failing: set<nat>, n: nat, kept: seq<Entry>)
    requires n < |batch| && SavedRows(batch, failing, n) == multiset(kept)
    ensures SavedRows(batch, failing, n + 1) ==
      if n in failing then multiset(kept) else multiset(kept + [batch[n]])
  {
  }

  // What is saved row by row is what is kept.
  lemma {:induction false} SavedRowsExactly(batch: seq<Entry>, failing: set<nat>, n: nat)
    returns (at: seq<nat>, kept: seq<Entry>)
    requires n <= |batch|
    ensures Kept(batch, failing, n, at, kept) && SavedRows(batch, failing, n) == multiset(kept)
  {
    at, kept := [], [];
    if n > 0 {
      at, kept := SavedRowsExactly(batch, failing, n - 1);
      OneMoreSaved(batch, failing, n - 1, kept);
      OneMoreKept(batch, failing, n - 1, at, kept);
      if n - 1 !in failing { at, kept := at + [n - 1], kept + [batch[n - 1]]; }
    }
  }

  // Of a batch all rows are stored when the transaction commits; otherwise exactly
  // those whose own insert works.
  lemma StoredExactly(batch: seq<Entry>, w: Writes) returns (at: seq<nat>, kept: seq<Entry>)
    ensures Picks(at, batch, kept) && StoredOf(batch, w) == multiset(kept)
    ensures forall i: nat :: i in at <==> i < |batch| && (w.bulkOk || i !in w.failing)
  {
    var failing := if w.bulkOk then {} else w.failing;
    at, kept := SavedRowsExactly(batch, failing, |batch|);
    SavedRowsAreOfBatch(batch, failing, |batch|);
    assert batch[..|batch|] == batch;
  }

  lemma StoredPlusLost(batch: seq<Entry>, w: Writes)
    ensures StoredOf(batch, w) + LostOf(batch, w) == multiset(batch)
    ensures w.bulkOk || w.failing == {} ==> LostOf(batch, w) == multiset{}
  {
    SavedRowsAreOfBatch(batch, w.failing, |batch|);
    assert batch[..|batch|] == batch;
  }

  // ---- The buffer's critical sections ---------------------------------------

  // bufferLog under logMu: the new buffer and the batches to write after it.
  datatype Appended = Appended(buf: seq<Entry>, capBatch: seq<Entry>, batch: seq<Entry>)

  function Append(buf: seq<Entry>, e: Entry): (a: Appended)
    ensures a.capBatch + a.batch + a.buf == buf + [e]
    ensures |buf| < FLUSH_SIZE ==>
      |a.buf| < FLUSH_SIZE && a.capBatch == [] && (a.batch == [] || |a.batch| == FLUSH_SIZE)
    // The cap clears a buffer of 1000 lines or more, the flush one that reaches 50.
    ensures if |buf| >= 1000 then a == Appended([e], buf, [])
            else if |buf| >= 49 then a == Appended([], [], buf + [e])
            else a == Appended(buf + [e], [], [])
  {
    var capBatch := if |buf| >= MAX_SIZE then buf else [];
    var b := (if |buf| >= MAX_SIZE then [] else buf) + [e];
    if |b| >= FLUSH_SIZE then Appended([], capBatch, b) else Appended(b, capBatch, [])
  }

  // ---- The object, called from one goroutine --------------------------------

  class LogBuffer {
    var logBuf: seq<Entry>
    var rows: multiset<Entry>         // what the run log holds
    var writes: Writes                // how the database behaves at present

    constructor ()
      ensures logBuf == [] && rows == multiset{}
    {
      logBuf, rows, writes := [], multiset{}, Writes(true, {});
    }

    method BufferLog(handler: nat, level: string, message: string)
      modifies this`logBuf, this`rows
      ensures
        var e := Entry(handler, Whitelisted(level), message);
        var a := Append(old(logBuf), e);
        && logBuf == a.buf
        && rows == old(rows) + StoredOf(a.capBatch, writes) + StoredOf(a.batch, writes)
    {
      var lvl := level;
      if lvl != "debug" && lvl != "info" && lvl != "warn" && lvl != "error" { lvl := "info"; }
      var entry := Entry(handler, lvl, message);
      var capBatch: seq<Entry> := [];
      if |logBuf| >= MAX_SIZE {
        capBatch := logBuf;
        logBuf := [];
      }
      logBuf := logBuf + [entry];
      var batch: seq<Entry> := [];
      if |logBuf| >= FLUSH_SIZE {
        batch := logBuf;
        logBuf := [];
      }
      FlushBatch(capBatch);
      FlushBatch(batch);
    }

    method FlushLogsNow()
      modifies this`logBuf, this`rows
      ensures logBuf == [] && rows == old(rows) + StoredOf(old(logBuf), writes)
    {
      var batch := logBuf;
      logBuf := [];
      FlushBatch(batch);
    }

    // All or nothing, then row by row.
    method FlushBatch(batch: seq<Entry>)
      modifies this`rows
      ensures rows == old(rows) + StoredOf(batch, writes)
    {
      if writes.bulkOk {
        rows := rows + multiset(batch);
        return;
      }
      for i := 0 to |batch|
        invariant rows == old(rows) + SavedRows(batch, writes.failing, i)
      {
        if i !in writes.failing { rows := rows + multiset{batch[i]}; }
      }
    }
  }

  // ---- The protocol ---------------------------------------------------------

  datatype AcceptPc = Accepting | InHand | AcceptExited    // InHand: accepted, acceptMu not yet taken

  datatype HandlerPc = Serving | Flushing(capBatch: seq<Entry>, batch: seq<Entry>) | Finished

  datatype FlusherPc = Ticking | Draining(batch: seq<Entry>, last: bool) | FlusherExited

  // When the wait group was observed at zero, late: a connection was in hand;
  // live: the flusher was not yet in its last drain; cut: handlers spawned by then.
  datatype StopPc =
    | NotCalled
    | ListenerClosed
    | PastBarrier
    | Waited(late: bool, live: bool, cut: nat)
    | Signalled(late: bool, live: bool, cut: nat)
    | Returned(late: bool, live: bool, cut: nat)

  datatype State = State(
    listening: bool,
    accept: AcceptPc,
    handlers: seq<HandlerPc>,
    buf: seq<Entry>,
    flusher: FlusherPc,
    cancelled: bool,
    stop: StopPc,
    stored: multiset<Entry>,
    lost: multiset<Entry>,
    issued: multiset<Entry>)          // everything passed to bufferLog

  const START := State(true, Accepting, [], [], Ticking, false, NotCalled, multiset{}, multiset{}, multiset{})

  datatype Label =
    | Accept
    | AcceptFails
    | Spawn
    | BufferLog(i: nat, level: string, message: string)
    | HandlerWrites(i: nat, w: Writes)
    | HandlerReturns(i: nat)
    | Tick
    | SeeSignal
    | SeeCancel
    | FlusherWrites(w: Writes)
    | CancelContext
    | StopStep

  predicate SignalClosed(stop: StopPc) {
    stop.Signalled? || stop.Returned?
  }

  // The wait for the handlers is over.
  predicate DoneWaiting(stop: StopPc) {
    stop.Waited? || stop.Signalled? || stop.Returned?
  }

  predicate LastDrain(f: FlusherPc) {
    f == FlusherExited || (f.Draining? && f.last)
  }

  predicate AllFinished(hs: seq<HandlerPc>, cut: nat) {
    cut <= |hs| && forall i :: 0 <= i < cut ==> hs[i] == Finished
  }

  function Written(s: State, batch: seq<Entry>, w: Writes): State {
    s.(stored := s.stored + StoredOf(batch, w), lost := s.lost + LostOf(batch, w))
  }

  function NextStop(s: State): State {
    match s.stop
    case NotCalled => s.(listening := false, stop := ListenerClosed)
    case ListenerClosed => s.(stop := PastBarrier)
    case PastBarrier =>
      if AllFinished(s.handlers, |s.handlers|)
      then s.(stop := Waited(s.accept == InHand, !LastDrain(s.flusher), |s.handlers|)) else s
    case Waited(late, live, cut) => s.(stop := Signalled(late, live, cut))
    case Signalled(late, live, cut) =>
      if s.flusher == FlusherExited then s.(stop := Returned(late, live, cut)) else s
    case Returned(_, _, _) => s
  }

  function Buffer(s: State, i: nat, e: Entry): State
    requires i < |s.handlers|
  {
    var a := Append(s.buf, e);
    var s' := s.(buf := a.buf, issued := s.issued + multiset{e});
    if a.capBatch == [] && a.batch == [] then s' else s'.(handlers := s.handlers[i := Flushing(a.capBatch, a.batch)])
  }

  function HandlerWrite(s: State, i: nat, w: Writes): State
    requires i < |s.handlers| && s.handlers[i].Flushing?
  {
    var pc := s.handlers[i];
    if pc.capBatch != [] then Written(s, pc.capBatch, w).(handlers := s.handlers[i := Flushing([], pc.batch)])
    else Written(s, pc.batch, w).(handlers := s.handlers[i := Serving])
  }

  function NextHandler(s: State, l: Label): State
    requires HandlerLabel(l) && l.i < |s.handlers|
  {
    match l
    case BufferLog(i, level, message) =>
      if s.handlers[i] == Serving then Buffer(s, i, Entry(i, Whitelisted(level), message)) else s
    case HandlerWrites(i, w) =>
      if s.handlers[i].Flushing? then HandlerWrite(s, i, w) else s
    case HandlerReturns(i) =>
      if s.handlers[i] == Serving then s.(handlers := s.handlers[i := Finished]) else s
  }

  predicate HandlerLabel(l: Label) {
    l.BufferLog? || l.HandlerWrites? || l.HandlerReturns?
  }

  // flushLogsNow: an empty buffer is not written.
  function Drain(s: State, last: bool): State {
    s.(buf := [], flusher := Draining(s.buf, last))
  }

  function FlusherWrite(s: State, w: Writes): State
    requires s.flusher.Draining?
  {
    Written(s, s.flusher.batch, w).(flusher := if s.flusher.last then FlusherExited else Ticking)
  }

  // A label whose step is not enabled leaves the state alone.
  function Next(s: State, l: Label): State {
    match l
    case Accept => if s.accept == Accepting && s.listening then s.(accept := InHand) else s
    case AcceptFails => if s.accept == Accepting then s.(accept := AcceptExited) else s
    case Spawn => if s.accept == InHand then s.(accept := Accepting, handlers := s.handlers + [Serving]) else s
    case Tick => if s.flusher == Ticking then Drain(s, false) else s
    case SeeSignal => if s.flusher == Ticking && SignalClosed(s.stop) then Drain(s, true) else s
    case SeeCancel => if s.flusher == Ticking && s.cancelled then Drain(s, true) else s
    case FlusherWrites(w) => if s.flusher.Draining? then FlusherWrite(s, w) else s
    case CancelContext => s.(cancelled := true)
    case StopStep => NextStop(s)
    case _ => if l.i < |s.handlers| then NextHandler(s, l) else s
  }

  function Exec(s: State, ls: seq<Label>): State
    decreases |ls|
  {
    if ls == [] then s else Exec(Next(s, ls[0]), ls[1..])
  }

  // ---- Conservation ---------------------------------------------------------

  // How often e is waiting with handlers between two critical sections.
  function HeldBy(pc: HandlerPc, e: Entry): nat {
    if pc.Flushing? then multiset(pc.capBatch)[e] + multiset(pc.batch)[e] else 0
  }

  function Held(hs: seq<HandlerPc>, e: Entry): nat {
    if hs == [] then 0 else Held(hs[..|hs| - 1], e) + HeldBy(hs[|hs| - 1], e)
  }

  function InDrain(pc: FlusherPc, e: Entry): nat {
    if pc.Draining? then multiset(pc.batch)[e] else 0
  }

  // Copies of e anywhere in the server or in the database, or given up on.
  function Copies(s: State, e: Entry): nat {
    s.stored[e] + s.lost[e] + multiset(s.buf)[e] + Held(s.handlers, e) + InDrain(s.flusher, e)
  }

  lemma {:induction false} HeldUpdate(hs: seq<HandlerPc>, i: nat, pc: HandlerPc, e: Entry)
    requires i < |hs|
    ensures Held(hs[i := pc], e) + HeldBy(hs[i], e) == Held(hs, e) + HeldBy(pc, e)
  {
    var n := |hs| - 1;
    if i < n {
      HeldUpdate(hs[..n], i, pc, e);
      assert hs[i := pc][..n] == hs[..n][i := pc];
    } else {
      assert hs[i := pc][..n] == hs[..n];
    }
  }

  lemma {:induction false} NothingHeld(hs: seq<HandlerPc>, e: Entry)
    requires forall i :: 0 <= i < |hs| ==> !hs[i].Flushing?
    ensures Held(hs, e) == 0
  {
    if hs != [] { NothingHeld(hs[..|hs| - 1], e); }
  }

  lemma WrittenCopies(s: State, batch: seq<Entry>, w: Writes, e: Entry)
    ensures Written(s, batch, w).stored[e] + Written(s, batch, w).lost[e]
         == s.stored[e] + s.lost[e] + multiset(batch)[e]
  {
    StoredPlusLost(batch, w);
    assert (StoredOf(batch, w) + LostOf(batch, w))[e] == multiset(batch)[e];
  }

  // Copies made but not passed in; zero throughout.
  function Surplus(s: State, e: Entry): int {
    Copies(s, e) - s.issued[e]
  }

  lemma AppendConserves(buf: seq<Entry>, x: Entry, e: Entry)
    ensures
      var a := Append(buf, x);
      multiset(a.capBatch)[e] + multiset(a.batch)[e] + multiset(a.buf)[e] == multiset(buf)[e] + multiset{x}[e]
  {
    var a := Append(buf, x);
    assert multiset(a.capBatch + a.batch + a.buf)[e] == multiset(buf + [x])[e];
  }

  lemma BufferConserves(s: State, i: nat, x: Entry, e: Entry)
    requires i < |s.handlers| && s.handlers[i] == Serving
    ensures Surplus(Buffer(s, i, x), e) == Surplus(s, e)
  {
    var a := Append(s.buf, x);
    AppendConserves(s.buf, x, e);
    if a.capBatch == [] && a.batch == [] {
    } else {
      HeldUpdate(s.handlers, i, Flushing(a.capBatch, a.batch), e);
    }
  }

  lemma HandlerWriteConserves(s: State, i: nat, w: Writes, e: Entry)
    requires i < |s.handlers| && s.handlers[i].Flushing?
    ensures Surplus(HandlerWrite(s, i, w), e) == Surplus(s, e)
  {
    var pc := s.handlers[i];
    if pc.capBatch != [] {
      WrittenCopies(s, pc.capBatch, w, e);
      HeldUpdate(s.handlers, i, Flushing([], pc.batch), e);
    } else {
      WrittenCopies(s, pc.batch, w, e);
      HeldUpdate(s.handlers, i, Serving, e);
    }
  }

  lemma HandlerConserves(s: State, l: Label, e: Entry)
    requires HandlerLabel(l) && l.i < |s.handlers|
    ensures Surplus(NextHandler(s, l), e) == Surplus(s, e)
  {
    match l
    case BufferLog(i, level, message) =>
      if s.handlers[i] == Serving { BufferConserves(s, i, Entry(i, Whitelisted(level), message), e); }
    case HandlerWrites(i, w) =>
      if s.handlers[i].Flushing? { HandlerWriteConserves(s, i, w, e); }
    case HandlerReturns(i) =>
      HeldUpdate(s.handlers, i, Finished, e);
  }

  lemma FlusherConserves(s: State, w: Writes, e: Entry)
    requires s.flusher.Draining?
    ensures Surplus(FlusherWrite(s, w), e) == Surplus(s, e)
  {
    WrittenCopies(s, s.flusher.batch, w, e);
  }

  lemma SpawnConserves(s: State, e: Entry)
    ensures Held(s.handlers + [Serving], e) == Held(s.handlers, e)
  {
    assert (s.handlers + [Serving])[..|s.handlers|] == s.handlers;
  }

  lemma DrainConserves(s: State, last: bool, e: Entry)
    requires s.flusher == Ticking
    ensures Surplus(Drain(s, last), e) == Surplus(s, e)
  {
  }

  lemma StopConserves(s: State, e: Entry)
    ensures Surplus(NextStop(s), e) == Surplus(s, e)
  {
    match s.stop
    case PastBarrier => if AllFinished(s.handlers, |s.handlers|) {} else {}
    case Signalled(late, live, cut) => if s.flusher == FlusherExited {} else {}
    case _ =>
  }

  lemma StepConserves(s: State, l: Label, e: Entry)
    ensures Surplus(Next(s, l), e) == Surplus(s, e)
  {
    match l
    case FlusherWrites(w) => if s.flusher.Draining? { FlusherConserves(s, w, e); }
    case Spawn => SpawnConserves(s, e);
    case StopStep => StopConserves(s, e);
    case Tick => if s.flusher == Ticking { DrainConserves(s, false, e); }
    case SeeSignal => if s.flusher == Ticking { DrainConserves(s, true, e); }
    case SeeCancel => if s.flusher == Ticking { DrainConserves(s, true, e); }
    case Accept =>
    case AcceptFails =>
    case CancelContext =>
    case _ => if l.i < |s.handlers| { HandlerConserves(s, l, e); }
  }

  // Over every run, no entry is duplicated or dropped: what was passed to
  // bufferLog is stored, given up on by a failed insert, buffered, or in the
  // hands of the goroutine about to write it.
  lemma {:induction false} Conservation(s: State, ls: seq<Label>, e: Entry)
    ensures Surplus(Exec(s, ls), e) == Surplus(s, e)
    decreases |ls|
  {
    if ls != [] {
      StepConserves(s, ls[0], e);
      Conservation(Next(s, ls[0]), ls[1..], e);
    }
  }

  // ---- Shutdown -------------------------------------------------------------

  // Past the wait: the counted handlers are finished, and at most one more
  // connection can still be served, one only if it was in hand then.
  predicate PastWait(s: State, late: bool, cut: nat) {
    && !s.listening && AllFinished(s.handlers, cut)
    && |s.handlers| + (if s.accept == InHand then 1 else 0) <= cut + (if late then 1 else 0)
  }

  predicate StopOk(s: State) {
    && (s.stop != NotCalled ==> !s.listening)
    && (DoneWaiting(s.stop) ==> PastWait(s, s.stop.late, s.stop.cut))
    && (s.stop.Returned? ==> s.flusher == FlusherExited)
  }

  // Between critical sections the buffer is below the flush threshold, so the
  // hard cap is never reached.
  predicate Bounded(s: State) {
    && |s.buf| < FLUSH_SIZE
    && forall i :: 0 <= i < |s.handlers| && s.handlers[i].Flushing? ==>
         s.handlers[i].capBatch == [] && |s.handlers[i].batch| == FLUSH_SIZE
  }

  // Unless the context was cancelled, the flusher is live until Stop's signal; and
  // one that was live when the wait ended leaves nothing buffered behind unless a
  // late handler logs.
  predicate DrainOk(s: State) {
    && (!s.cancelled && LastDrain(s.flusher) ==> SignalClosed(s.stop))
    && (!s.cancelled && DoneWaiting(s.stop) ==> s.stop.live)
    && (DoneWaiting(s.stop) && s.stop.live && !s.stop.late && LastDrain(s.flusher) ==> s.buf == [])
  }

  predicate Inv(s: State) {
    StopOk(s) && Bounded(s) && DrainOk(s)
  }

  lemma BufferKeeps(s: State, i: nat, e: Entry)
    requires Inv(s) && i < |s.handlers| && s.handlers[i] == Serving
    ensures Inv(Buffer(s, i, e))
  {
    var a := Append(s.buf, e);
    assert StopOk(s) ==> StopOk(Buffer(s, i, e));
  }

  lemma HandlerWriteKeeps(s: State, i: nat, w: Writes)
    requires Inv(s) && i < |s.handlers| && s.handlers[i].Flushing?
    ensures Inv(HandlerWrite(s, i, w))
  {
  }

  lemma HandlerKeeps(s: State, l: Label)
    requires Inv(s) && HandlerLabel(l) && l.i < |s.handlers|
    ensures Inv(NextHandler(s, l))
  {
    match l
    case BufferLog(i, level, message) =>
      if s.handlers[i] == Serving { BufferKeeps(s, i, Entry(i, Whitelisted(level), message)); }
    case HandlerWrites(i, w) =>
      if s.handlers[i].Flushing? { HandlerWriteKeeps(s, i, w); }
    case HandlerReturns(i) =>
  }

  lemma AcceptKeeps(s: State, l: Label)
    requires Inv(s) && (l.Accept? || l.AcceptFails? || l.Spawn? || l.CancelContext?)
    ensures Inv(Next(s, l))
  {
    match l
    case Accept => if s.accept == Accepting && s.listening {} else {}
    case AcceptFails => if s.accept == Accepting {} else {}
    case Spawn => if s.accept == InHand {} else {}
    case CancelContext =>
  }

  lemma FlusherKeeps(s: State, l: Label)
    requires Inv(s) && (l.Tick? || l.SeeSignal? || l.SeeCancel? || l.FlusherWrites?)
    ensures Inv(Next(s, l))
  {
    match l
    case Tick => if s.flusher == Ticking {} else {}
    case SeeSignal => if s.flusher == Ticking && SignalClosed(s.stop) {} else {}
    case SeeCancel => if s.flusher == Ticking && s.cancelled {} else {}
    case FlusherWrites(w) => if s.flusher.Draining? {} else {}
  }

  lemma StopKeeps(s: State)
    requires Inv(s)
    ensures Inv(NextStop(s))
  {
    match s.stop
    case PastBarrier => if AllFinished(s.handlers, |s.handlers|) {} else {}
    case Signalled(late, live, cut) => if s.flusher == FlusherExited {} else {}
    case _ =>
  }

  lemma StepKeeps(s: State, l: Label)
    requires Inv(s)
    ensures Inv(Next(s, l))
  {
    if HandlerLabel(l) {
      if l.i < |s.handlers| { HandlerKeeps(s, l); }
    } else if l.StopStep? {
      StopKeeps(s);
    } else if l.Tick? || l.SeeSignal? || l.SeeCancel? || l.FlusherWrites? {
      FlusherKeeps(s, l);
    } else {
      AcceptKeeps(s, l);
    }
  }

  lemma {:induction false} EveryRun(s: State, ls: seq<Label>)
    requires Inv(s)
    ensures Inv(Exec(s, ls))
    decreases |ls|
  {
    if ls != [] {
      StepKeeps(s, ls[0]);
      EveryRun(Next(s, ls[0]), ls[1..]);
    }
  }

  // ---- What Stop guarantees -------------------------------------------------

  // When Stop returns with no connection in hand at the end of its wait, nothing is
  // in flight: whatever is not stored (or refused row by row) is still in the
  // buffer, fewer than 50 lines of it; and nothing is, cancelled context or not, if
  // the flusher was still live at the end of the wait.
  lemma StopFlushesEverything(ls: seq<Label>)
    requires Exec(START, ls).stop.Returned? && !Exec(START, ls).stop.late
    ensures
      var s := Exec(START, ls);
      && s.stored + s.lost + multiset(s.buf) == s.issued && |s.buf| < 50
      && (s.stop.live ==> s.stored + s.lost == s.issued)
      && (!s.cancelled ==> s.stop.live)
  {
    var s := Exec(START, ls);
    EveryRun(START, ls);
    forall e ensures (s.stored + s.lost + multiset(s.buf))[e] == s.issued[e] {
      Conservation(START, ls, e);
      NothingHeld(s.handlers, e);
    }
    if s.stop.live { assert s.buf == []; }
  }

  // Lines are given up on only where the bulk transaction and then the insert of
  // the row itself failed.
  predicate DatabaseWorks(ls: seq<Label>) {
    forall l :: l in ls && (l.HandlerWrites? || l.FlusherWrites?) ==> l.w.bulkOk || l.w.failing == {}
  }

  lemma {:induction false} NothingGivenUp(s: State, ls: seq<Label>)
    requires DatabaseWorks(ls)
    ensures Exec(s, ls).lost == s.lost
    decreases |ls|
  {
    if ls != [] {
      assert ls[0] in ls && forall l :: l in ls[1..] ==> l in ls;
      NextKeepsLost(s, ls[0]);
      NothingGivenUp(Next(s, ls[0]), ls[1..]);
    }
  }

  lemma NextKeepsLost(s: State, l: Label)
    requires l.HandlerWrites? || l.FlusherWrites? ==> l.w.bulkOk || l.w.failing == {}
    ensures Next(s, l).lost == s.lost
  {
    if l.HandlerWrites? && l.i < |s.handlers| && s.handlers[l.i].Flushing? {
      StoredPlusLost(s.handlers[l.i].capBatch, l.w);
      StoredPlusLost(s.handlers[l.i].batch, l.w);
    } else if l.FlusherWrites? && s.flusher.Draining? {
      StoredPlusLost(s.flusher.batch, l.w);
    }
  }

  // No loss and no duplication through a shutdown whose wait ended with no
  // connection in hand and the flusher still live.
  lemma NoLogLost(ls: seq<Label>)
    requires Exec(START, ls).stop.Returned? && !Exec(START, ls).stop.late && Exec(START, ls).stop.live
    requires DatabaseWorks(ls)
    ensures Exec(START, ls).stored == Exec(START, ls).issued
  {
    StopFlushesEverything(ls);
    NothingGivenUp(START, ls);
    assert Exec(START, ls).stored + multiset{} == Exec(START, ls).stored;
  }

  lemma {:induction false} HeldByOne(hs: seq<HandlerPc>, cut: nat, e: Entry)
    requires AllFinished(hs, cut) && |hs| <= cut + 1
    ensures Held(hs, e) == if |hs| == cut then 0 else HeldBy(hs[cut], e)
  {
    if |hs| == cut { NothingHeld(hs, e); }
    else { assert hs[..|hs| - 1][..cut] == hs[..cut]; NothingHeld(hs[..|hs| - 1], e); }
  }

  // A connection in hand at the end of the wait is served at most once, and then at most
  // 99 lines, of any handler, are still on their way when Stop returns.
  lemma LateHandlerBound(ls: seq<Label>) returns (outstanding: seq<Entry>)
    requires Exec(START, ls).stop.Returned?
    ensures
      var s := Exec(START, ls);
      && |s.handlers| <= s.stop.cut + 1
      && |outstanding| < 100
      && s.stored + s.lost + multiset(outstanding) == s.issued
  {
    var s := Exec(START, ls);
    EveryRun(START, ls);
    var late := |s.handlers| > s.stop.cut && s.handlers[s.stop.cut].Flushing?;
    outstanding := s.buf + (if late then s.handlers[s.stop.cut].batch else []);
    forall e ensures (s.stored + s.lost + multiset(outstanding))[e] == s.issued[e] {
      Conservation(START, ls, e);
      HeldByOne(s.handlers, s.stop.cut, e);
    }
  }

  // In every run the hard cap of the buffer is out of reach.
  lemma CapNeverReached(ls: seq<Label>, e: Entry)
    ensures Append(Exec(START, ls).buf, e).capBatch == []
  {
    EveryRun(START, ls);
  }

  // ---- Exactly when a line can be lost ---------------------------------------

  predicate CanConnect(s: State) {
    s.accept == InHand || (s.accept == Accepting && s.listening)
  }

  // Someone can still log.
  predicate CanLog(s: State) {
    CanConnect(s) || !AllFinished(s.handlers, |s.handlers|)
  }

  // Lines logged from here on, or already buffered, may miss the last drain; with
  // the context left alone, before the wait is over, only those of a connection
  // that Stop does not wait for.
  predicate AtRisk(s: State, mayCancel: bool) {
    if !mayCancel && !DoneWaiting(s.stop) then CanConnect(s)
    else CanLog(s) || (LastDrain(s.flusher) && s.buf != [])
  }

  // With a working database, Stop returns after ls and a line is not stored.
  predicate Loses(s: State, ls: seq<Label>, mayCancel: bool) {
    var s' := Exec(s, ls);
    && DatabaseWorks(ls) && (mayCancel || CancelContext !in ls)
    && s'.stop.Returned? && s'.stored + s'.lost != s'.issued
  }

  predicate MayTake(s: State, l: Label, mayCancel: bool) {
    mayCancel || (!s.cancelled && l != CancelContext)
  }

  lemma HandlersStaySafe(s: State, l: Label, mayCancel: bool)
    requires Inv(s) && !AtRisk(s, mayCancel) && HandlerLabel(l) && l.i < |s.handlers|
    ensures !AtRisk(NextHandler(s, l), mayCancel) && NextHandler(s, l).cancelled == s.cancelled
  {
    if !mayCancel && !DoneWaiting(s.stop) {
      match l
      case BufferLog(i, level, message) => if s.handlers[i] == Serving {} else {}
      case HandlerWrites(i, w) => if s.handlers[i].Flushing? {} else {}
      case HandlerReturns(i) => if s.handlers[i] == Serving {} else {}
    }
  }

  lemma StopStaysSafe(s: State, mayCancel: bool)
    requires Inv(s) && !AtRisk(s, mayCancel) && (mayCancel || !s.cancelled)
    ensures !AtRisk(NextStop(s), mayCancel) && NextStop(s).cancelled == s.cancelled
  {
    match s.stop
    case PastBarrier => if AllFinished(s.handlers, |s.handlers|) {} else {}
    case Signalled(late, live, cut) => if s.flusher == FlusherExited {} else {}
    case _ =>
  }

  lemma FlusherStaysSafe(s: State, l: Label, mayCancel: bool)
    requires Inv(s) && !AtRisk(s, mayCancel) && (mayCancel || !s.cancelled)
    requires l.Tick? || l.SeeSignal? || l.SeeCancel? || l.FlusherWrites?
    ensures !AtRisk(Next(s, l), mayCancel) && Next(s, l).cancelled == s.cancelled
  {
    match l
    case Tick => if s.flusher == Ticking {} else {}
    case SeeSignal => if s.flusher == Ticking && SignalClosed(s.stop) {} else {}
    case SeeCancel => if s.flusher == Ticking && s.cancelled {} else {}
    case FlusherWrites(w) => if s.flusher.Draining? {} else {}
  }

  lemma AcceptStaysSafe(s: State, l: Label, mayCancel: bool)
    requires Inv(s) && !AtRisk(s, mayCancel) && MayTake(s, l, mayCancel)
    requires l.Accept? || l.AcceptFails? || l.Spawn? || l.CancelContext?
    ensures !AtRisk(Next(s, l), mayCancel) && (mayCancel || !Next(s, l).cancelled)
  {
    match l
    case Accept => if s.accept == Accepting && s.listening {} else {}
    case AcceptFails => if s.accept == Accepting {} else {}
    case Spawn => if s.accept == InHand {} else {}
    case CancelContext =>
  }

  lemma StaysSafe(s: State, l: Label, mayCancel: bool)
    requires Inv(s) && !AtRisk(s, mayCancel) && MayTake(s, l, mayCancel)
    ensures !AtRisk(Next(s, l), mayCancel) && (mayCancel || !Next(s, l).cancelled)
  {
    if HandlerLabel(l) {
      if l.i < |s.handlers| { HandlersStaySafe(s, l, mayCancel); }
    } else if l.StopStep? {
      StopStaysSafe(s, mayCancel);
    } else if l.Tick? || l.SeeSignal? || l.SeeCancel? || l.FlusherWrites? {
      FlusherStaysSafe(s, l, mayCancel);
    } else {
      AcceptStaysSafe(s, l, mayCancel);
    }
  }

  lemma {:induction false} SafeRuns(s: State, ls: seq<Label>, mayCancel: bool)
    requires Inv(s) && !AtRisk(s, mayCancel) && (mayCancel || (!s.cancelled && CancelContext !in ls))
    ensures !AtRisk(Exec(s, ls), mayCancel)
    decreases |ls|
  {
    if ls != [] {
      assert ls[0] in ls && forall l :: l in ls[1..] ==> l in ls;
      StaysSafe(s, ls[0], mayCancel);
      StepKeeps(s, ls[0]);
      SafeRuns(Next(s, ls[0]), ls[1..], mayCancel);
    }
  }

  // ---- Runs that lose one -----------------------------------------------------

  lemma {:induction false} ExecAppend(s: State, a: seq<Label>, b: seq<Label>)
    ensures Exec(s, a + b) == Exec(Exec(s, a), b)
    decreases |a|
  {
    if a == [] {
      assert a + b == b;
    } else {
      assert (a + b)[0] == a[0] && (a + b)[1..] == a[1..] + b;
      ExecAppend(Next(s, a[0]), a[1..], b);
    }
  }

  lemma One(s: State, l: Label)
    ensures Exec(s, [l]) == Next(s, l)
  {
    assert [l][1..] == [] && Exec(Next(s, l), []) == Next(s, l);
  }

  const ALL_WRITTEN := Writes(true, {})

  // ls leads from s to s' with a working database and a context left alone.
  predicate Leads(s: State, ls: seq<Label>, s': State) {
    s' == Exec(s, ls) && DatabaseWorks(ls) && CancelContext !in ls
  }

  lemma Chained(s: State, a: seq<Label>, s1: State, b: seq<Label>, s2: State)
    requires Inv(s) && Leads(s, a, s1) && Leads(s1, b, s2)
    ensures Leads(s, a + b, s2) && Inv(s1) && Inv(s2)
  {
    ExecAppend(s, a, b);
    EveryRun(s, a);
    EveryRun(s1, b);
  }

  // Nothing but the handlers and what they wrote differs.
  predicate Beside(s: State, s': State) {
    && s'.listening == s.listening && s'.accept == s.accept && s'.buf == s.buf && s'.flusher == s.flusher
    && s'.cancelled == s.cancelled && s'.stop == s.stop && |s'.handlers| == |s.handlers|
  }

  // A handler done with its write, back to serving.
  lemma WriteEnds(s: State, i: nat) returns (ls: seq<Label>, s': State)
    requires Inv(s) && i < |s.handlers|
    ensures Leads(s, ls, s') && Beside(s, s')
    ensures s'.handlers == s.handlers[i := if s.handlers[i].Flushing? then Serving else s.handlers[i]]
  {
    if s.handlers[i].Flushing? {
      ls := [HandlerWrites(i, ALL_WRITTEN)];
      One(s, ls[0]);
      s' := HandlerWrite(s, i, ALL_WRITTEN);
    } else {
      ls, s' := [], s;
    }
  }

  lemma HandlerEnds(s: State, i: nat) returns (ls: seq<Label>, s': State)
    requires Inv(s) && i < |s.handlers|
    ensures Leads(s, ls, s') && Beside(s, s') && s'.handlers == s.handlers[i := Finished]
  {
    var ls1, s1 := WriteEnds(s, i);
    if s1.handlers[i] == Serving {
      var ls2 := [HandlerReturns(i)];
      One(s1, ls2[0]);
      s' := s1.(handlers := s1.handlers[i := Finished]);
      Chained(s, ls1, s1, ls2, s');
      ls := ls1 + ls2;
    } else {
      ls, s' := ls1, s1;
    }
  }

  lemma {:induction false} FinishAll(s: State, n: nat) returns (ls: seq<Label>, s': State)
    requires Inv(s) && n <= |s.handlers|
    ensures Leads(s, ls, s') && Beside(s, s') && AllFinished(s'.handlers, n)
    decreases n
  {
    if n == 0 {
      ls, s' := [], s;
    } else {
      var ls1, s1 := FinishAll(s, n - 1);
      EveryRun(s, ls1);
      var ls2, s2 := HandlerEnds(s1, n - 1);
      Chained(s, ls1, s1, ls2, s2);
      ls, s' := ls1 + ls2, s2;
    }
  }

  // Only Stop moved, and the listener with it.
  predicate StopMoved(s: State, s': State) {
    && s'.accept == s.accept && s'.handlers == s.handlers && s'.buf == s.buf && s'.flusher == s.flusher
    && s'.cancelled == s.cancelled && (s'.listening ==> s.listening)
  }

  function StepsToSignal(stop: StopPc): nat {
    match stop
    case NotCalled => 4
    case ListenerClosed => 3
    case PastBarrier => 2
    case Waited(_, _, _) => 1
    case _ => 0
  }

  lemma StopMoves(s: State) returns (ls: seq<Label>, s': State)
    requires Inv(s) && (DoneWaiting(s.stop) || AllFinished(s.handlers, |s.handlers|))
    ensures Leads(s, ls, s') && StopMoved(s, s') && SignalClosed(s'.stop)
    decreases StepsToSignal(s.stop)
  {
    if SignalClosed(s.stop) {
      ls, s' := [], s;
    } else {
      var s1 := NextStop(s);
      One(s, StopStep);
      StopKeeps(s);
      var ls2, s2 := StopMoves(s1);
      Chained(s, [StopStep], s1, ls2, s2);
      ls, s' := [StopStep] + ls2, s2;
    }
  }

  predicate FlusherMoved(s: State, s': State) {
    && s'.listening == s.listening && s'.accept == s.accept && s'.handlers == s.handlers
    && s'.cancelled == s.cancelled && s'.stop == s.stop && s'.flusher == FlusherExited
  }

  function StepsToExit(f: FlusherPc): nat {
    match f
    case Draining(_, last) => if last then 1 else 3
    case Ticking => 2
    case FlusherExited => 0
  }

  // The flusher leaves; a buffer behind its last drain stays.
  lemma FlusherLeaves(s: State) returns (ls: seq<Label>, s': State)
    requires Inv(s) && (SignalClosed(s.stop) || s.cancelled)
    ensures Leads(s, ls, s') && FlusherMoved(s, s') && (LastDrain(s.flusher) ==> s'.buf == s.buf)
    decreases StepsToExit(s.flusher)
  {
    if s.flusher == FlusherExited {
      ls, s' := [], s;
    } else {
      var l := if s.flusher.Draining? then FlusherWrites(ALL_WRITTEN)
               else if SignalClosed(s.stop) then SeeSignal else SeeCancel;
      var s1 := if s.flusher.Draining? then FlusherWrite(s, ALL_WRITTEN) else Drain(s, true);
      One(s, l);
      FlusherKeeps(s, l);
      var ls2, s2 := FlusherLeaves(s1);
      Chained(s, [l], s1, ls2, s2);
      ls, s' := [l] + ls2, s2;
    }
  }

  predicate Later(s: State, s': State) {
    s'.flusher == s.flusher && s'.stop == s.stop && s'.cancelled == s.cancelled
  }

  // Whoever can still log gets to serve.
  lemma SomeoneServes(s: State) returns (ls: seq<Label>, s': State, i: nat)
    requires Inv(s) && CanLog(s)
    ensures Leads(s, ls, s') && Later(s, s') && i < |s'.handlers| && s'.handlers[i] == Serving
  {
    if !AllFinished(s.handlers, |s.handlers|) {
      i :| i < |s.handlers| && s.handlers[i] != Finished;
      ls, s' := WriteEnds(s, i);
    } else {
      i := |s.handlers|;
      var ls1, s1 := [], s;
      if s.accept != InHand {
        ls1, s1 := [Accept], s.(accept := InHand);
        One(s, Accept);
      }
      var ls2 := [Spawn];
      One(s1, Spawn);
      s' := s1.(accept := Accepting, handlers := s1.handlers + [Serving]);
      Chained(s, ls1, s1, ls2, s');
      ls := ls1 + ls2;
    }
  }

  lemma LogsALine(s: State, i: nat) returns (s': State)
    requires Inv(s) && i < |s.handlers| && s.handlers[i] == Serving
    ensures Leads(s, [BufferLog(i, "info", "x")], s') && Later(s, s')
    ensures |s'.handlers| == |s.handlers|
    ensures s'.buf == [] ==> |s.buf| == FLUSH_SIZE - 1 && s'.handlers[i].Flushing?
    ensures s'.buf != [] ==> s'.handlers[i] == Serving
  {
    s' := Buffer(s, i, Entry(i, "info", "x"));
    One(s, BufferLog(i, "info", "x"));
  }

  // A line is left in the buffer.
  lemma LeavesALine(s: State, i: nat) returns (ls: seq<Label>, s': State)
    requires Inv(s) && i < |s.handlers| && s.handlers[i] == Serving
    ensures Leads(s, ls, s') && Later(s, s') && s'.buf != []
  {
    ls := [BufferLog(i, "info", "x")];
    s' := LogsALine(s, i);
    if s'.buf == [] {
      EveryRun(s, ls);
      var ls2, s2 := WriteEnds(s', i);
      Chained(s, ls, s', ls2, s2);
      assert s2.handlers[i] == Serving;
      var s3 := LogsALine(s2, i);
      Chained(s, ls + ls2, s2, [BufferLog(i, "info", "x")], s3);
      ls, s' := ls + ls2 + [BufferLog(i, "info", "x")], s3;
    }
  }

  // With the flusher gone, Stop returns and the buffer is as it was.
  lemma ReturnsPast(s: State) returns (ls: seq<Label>, s': State)
    requires Inv(s) && s.flusher == FlusherExited
    ensures Leads(s, ls, s') && s'.stop.Returned? && s'.buf == s.buf
  {
    var ls1, s1 := FinishAll(s, |s.handlers|);
    EveryRun(s, ls1);
    var ls2, s2 := StopMoves(s1);
    Chained(s, ls1, s1, ls2, s2);
    One(s2, StopStep);
    s' := NextStop(s2);
    Chained(s, ls1 + ls2, s2, [StopStep], s');
    ls := ls1 + ls2 + [StopStep];
  }

  // With the flusher gone, a line buffered or still to come is lost.
  lemma LosesBehindTheFlusher(s: State) returns (ls: seq<Label>, s': State)
    requires Inv(s) && s.flusher == FlusherExited && (CanLog(s) || s.buf != [])
    ensures Leads(s, ls, s') && s'.stop.Returned? && s'.buf != []
  {
    var ls1, s1 := [], s;
    if s.buf == [] {
      var i;
      ls1, s1, i := SomeoneServes(s);
      EveryRun(s, ls1);
      var lsx, sx := LeavesALine(s1, i);
      Chained(s, ls1, s1, lsx, sx);
      ls1, s1 := ls1 + lsx, sx;
    }
    EveryRun(s, ls1);
    var ls2;
    ls2, s' := ReturnsPast(s1);
    Chained(s, ls1, s1, ls2, s');
    ls := ls1 + ls2;
  }

  // To the point where the flusher is gone, with the risk still there.
  lemma RiskOutlivesTheFlusher(s: State) returns (ls: seq<Label>, s': State)
    requires Inv(s) && AtRisk(s, s.cancelled)
    ensures Leads(s, ls, s') && s'.flusher == FlusherExited && (CanLog(s') || s'.buf != [])
  {
    var ls1, s1 := [], s;
    if !s.cancelled {
      if !DoneWaiting(s.stop) {
        if s.accept != InHand {
          ls1, s1 := [Accept], s.(accept := InHand);
          One(s, Accept);
          EveryRun(s, ls1);
        }
        var lsx, sx := FinishAll(s1, |s1.handlers|);
        Chained(s, ls1, s1, lsx, sx);
        ls1, s1 := ls1 + lsx, sx;
      }
      var lsy, sy := StopMoves(s1);
      Chained(s, ls1, s1, lsy, sy);
      ls1, s1 := ls1 + lsy, sy;
    }
    var ls2;
    ls2, s' := FlusherLeaves(s1);
    Chained(s, ls1, s1, ls2, s');
    ls := ls1 + ls2;
  }

  lemma RiskIsLoss(s: State, mayCancel: bool) returns (ls: seq<Label>)
    requires Inv(s) && AtRisk(s, mayCancel) && (mayCancel || !s.cancelled)
    requires forall e :: Surplus(s, e) == 0
    ensures Loses(s, ls, mayCancel)
  {
    var ls0, s0 := [], s;
    if mayCancel {
      ls0, s0 := [CancelContext], s.(cancelled := true);
      One(s, CancelContext);
      EveryRun(s, ls0);
    }
    var ls1, s1 := RiskOutlivesTheFlusher(s0);
    EveryRun(s0, ls1);
    var ls2, s2 := LosesBehindTheFlusher(s1);
    Chained(s0, ls1, s1, ls2, s2);
    ExecAppend(s, ls0, ls1 + ls2);
    ls := ls0 + (ls1 + ls2);
    var e := s2.buf[0];
    Conservation(s, ls, e);
    assert (s2.stored + s2.lost)[e] < s2.issued[e];
  }

  // In every reachable state: there is a way for Stop to return with a line lost,
  // the database working, exactly when the state is at risk. Mid-wait with the
  // context alive, that is a connection in hand (or still to be accepted) and
  // nothing else; once the wait is over, or with cancellation possible, it is
  // someone who can still log, or a buffer behind the flusher's last drain.
  lemma LossExactlyAtRisk(before: seq<Label>, mayCancel: bool)
    requires mayCancel || !Exec(START, before).cancelled
    ensures (exists ls :: Loses(Exec(START, before), ls, mayCancel)) <==> AtRisk(Exec(START, before), mayCancel)
  {
    var s := Exec(START, before);
    EveryRun(START, before);
    forall e ensures Surplus(s, e) == 0 { Conservation(START, before, e); }
    if AtRisk(s, mayCancel) {
      var ls := RiskIsLoss(s, mayCancel);
    } else {
      forall ls ensures !Loses(s, ls, mayCancel) {
        if Loses(s, ls, mayCancel) {
          SafeRuns(s, ls, mayCancel);
          EveryRun(s, ls);
          NothingMissing(s, ls);
        }
      }
    }
  }

  lemma NothingMissing(s: State, ls: seq<Label>)
    requires Inv(Exec(s, ls)) && Exec(s, ls).stop.Returned? && !AtRisk(Exec(s, ls), true)
    requires forall e :: Surplus(s, e) == 0
    ensures Exec(s, ls).stored + Exec(s, ls).lost == Exec(s, ls).issued
  {
    var s' := Exec(s, ls);
    forall e ensures (s'.stored + s'.lost)[e] == s'.issued[e] {
      Conservation(s, ls, e);
      NothingHeld(s'.handlers, e);
    }
  }

  // Two readings of it. A flusher that left because of a cancelled context before
  // the last handler finished loses lines in some continuation, and only then: one
  // that left with an empty buffer after everyone finished loses none.
  lemma EarlyFlusherExactly(before: seq<Label>)
    requires LastDrain(Exec(START, before).flusher)
    ensures
      var s := Exec(START, before);
      (exists ls :: Loses(s, ls, true)) <==> s.buf != [] || CanConnect(s) || !AllFinished(s.handlers, |s.handlers|)
  {
    LossExactlyAtRisk(before, true);
  }

  // And past the barrier, with the context left alone, a connection in hand is the
  // one thing that can cost a line.
  lemma LateConnectionExactly(before: seq<Label>)
    requires Exec(START, before).stop.PastBarrier? && !Exec(START, before).cancelled
    ensures
      var s := Exec(START, before);
      (exists ls :: Loses(s, ls, false)) <==> s.accept == InHand
  {
    LossExactlyAtRisk(before, false);
    EveryRun(START, before);
  }
}
