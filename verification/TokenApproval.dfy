// Approve links end to end: the token store and the gate side by side. The
// handler of a link redeems its token and then calls ApproveIfHash with the
// binding it got; anything may happen in between (handleApproveLinkRedeem in
// pkg/webui/approval.go).
module TokenApproval {
  import opened Records
  import opened GateModel
  import opened GateHistory
  import opened GateSafety
  import opened GateInterleavings
  import opened GateFrames
  import Tokens

  // What a redemption gave, and which call of the token store it was.
  datatype Binding = Binding(task: string, hash: string, call: nat)

  datatype Op =
    | Gate(l: Label)                    // includes the hash-bound calls of the API
    | Store(call: Tokens.Op)            // minting, peeking, redeeming elsewhere
    | Link(h: nat, token: string, now: int, db: bool)
    | Follow(h: nat, t: nat)            // handler h goes on to approve

  // With the calls the token store saw, and the steps the gate took.
  datatype System = System(gate: State, rows: Tokens.Rows, handlers: map<nat, Binding>,
                           calls: seq<Tokens.Op>, steps: seq<Label>)

  function Called(digest: string -> string, s: System, call: Tokens.Op): System {
    s.(rows := Tokens.AfterOp(digest, s.rows, call), calls := s.calls + [call])
  }

  function Stepped(c: Config, s: System, l: Label): System {
    s.(gate := GateModel.Next(c, s.gate, l), steps := s.steps + [l])
  }

  function Step(c: Config, digest: string -> string, s: System, op: Op): System {
    match op
    case Gate(l) => Stepped(c, s, l)
    case Store(call) => Called(digest, s, call)
    case Link(h, token, now, db) =>
      if h in s.handlers then s
      else
        var answer := Tokens.AnswerOf(digest, s.rows, Tokens.Redeem(token, now, db));
        var s' := Called(digest, s, Tokens.Redeem(token, now, db));
        if answer.Bound? then s'.(handlers := s.handlers[h := Binding(answer.task, answer.hash, |s.calls|)]) else s'
    case Follow(h, t) =>
      if h !in s.handlers then s
      else
        var b := s.handlers[h];
        Stepped(c, s, StartApprove(t, b.task, b.hash)).(handlers := s.handlers - {h})
  }

  const EMPTY: Tokens.Rows := map[]

  // tr is the run of ops: the systems before each operation and after the last.
  ghost predicate IsRun(c: Config, digest: string -> string, ops: seq<Op>, tr: seq<System>) {
    && |tr| == |ops| + 1 && tr[0] == System(Start(c), EMPTY, map[], [], [])
    && forall i: nat {:trigger IsStep(c, digest, ops, tr, i)} :: i < |ops| ==> IsStep(c, digest, ops, tr, i)
  }

  predicate IsStep(c: Config, digest: string -> string, ops: seq<Op>, tr: seq<System>, i: nat)
    requires i < |ops| && |tr| == |ops| + 1
  {
    tr[i + 1] == Step(c, digest, tr[i], ops[i])
  }

  // ---- Both parts are runs of their own ------------------------------------------

  lemma GateStepped(c: Config, s: System, l: Label)
    requires s.gate == Exec(c, Start(c), s.steps)
    ensures Stepped(c, s, l).gate == Exec(c, Start(c), Stepped(c, s, l).steps)
  {
    OneStep(c, Start(c), s.steps, l);
  }

  lemma GateSteps(c: Config, digest: string -> string, s: System, op: Op)
    requires s.gate == Exec(c, Start(c), s.steps)
    ensures Step(c, digest, s, op).gate == Exec(c, Start(c), Step(c, digest, s, op).steps)
  {
    if op.Gate? {
      GateStepped(c, s, op.l);
    } else if op.Follow? && op.h in s.handlers {
      GateStepped(c, s, StartApprove(op.t, s.handlers[op.h].task, s.handlers[op.h].hash));
    }
  }

  // So every theorem about runs of the gate applies.
  lemma {:induction false} GateRuns(c: Config, digest: string -> string, ops: seq<Op>, tr: seq<System>, n: nat)
    requires IsRun(c, digest, ops, tr) && n < |tr|
    ensures tr[n].gate == Exec(c, Start(c), tr[n].steps)
    decreases n
  {
    if n > 0 {
      GateRuns(c, digest, ops, tr, n - 1);
      assert IsStep(c, digest, ops, tr, n - 1);
      GateSteps(c, digest, tr[n - 1], ops[n - 1]);
    }
  }

  // What the handlers hold was redeemed, each by a call of its own.
  ghost predicate Inv(digest: string -> string, s: System) {
    && s.rows == Tokens.After(digest, s.calls)
    && (forall h :: h in s.handlers ==> Redeemed(digest, s.calls, s.handlers[h]))
    && (forall h, k | h in s.handlers && k in s.handlers && h != k :: s.handlers[h].call != s.handlers[k].call)
  }

  ghost predicate Redeemed(digest: string -> string, calls: seq<Tokens.Op>, b: Binding) {
    && b.call < |calls| && calls[b.call].Redeem?
    && Tokens.AnswerAt(digest, calls, b.call) == Tokens.Bound(b.task, b.hash)
  }

  lemma RedeemedStays(digest: string -> string, calls: seq<Tokens.Op>, call: Tokens.Op, b: Binding)
    requires Redeemed(digest, calls, b)
    ensures Redeemed(digest, calls + [call], b)
  {
    assert (calls + [call])[..b.call] == calls[..b.call];
  }

  lemma CallKeeps(digest: string -> string, s: System, call: Tokens.Op)
    requires Inv(digest, s)
    ensures Inv(digest, Called(digest, s, call))
  {
    var s' := Called(digest, s, call);
    assert s'.calls[..|s.calls|] == s.calls;
    forall h | h in s.handlers ensures Redeemed(digest, s'.calls, s.handlers[h]) {
      RedeemedStays(digest, s.calls, call, s.handlers[h]);
    }
  }

  lemma LinkKeeps(c: Config, digest: string -> string, s: System, op: Op)
    requires Inv(digest, s) && op.Link? && op.h !in s.handlers
    ensures Inv(digest, Step(c, digest, s, op))
  {
    var call := Tokens.Redeem(op.token, op.now, op.db);
    CallKeeps(digest, s, call);
    var calls := s.calls + [call];
    assert calls[..|s.calls|] == s.calls && calls[|s.calls|] == call;
    if Tokens.AnswerOf(digest, s.rows, call).Bound? {
      assert Redeemed(digest, calls, Step(c, digest, s, op).handlers[op.h]);
    }
  }

  lemma StepKeeps(c: Config, digest: string -> string, s: System, op: Op)
    requires Inv(digest, s)
    ensures Inv(digest, Step(c, digest, s, op))
  {
    match op
    case Store(call) => CallKeeps(digest, s, call);
    case Link(h, _, _, _) => if h !in s.handlers { LinkKeeps(c, digest, s, op); }
    case _ =>
  }

  lemma {:induction false} InvHolds(c: Config, digest: string -> string, ops: seq<Op>, tr: seq<System>, n: nat)
    requires IsRun(c, digest, ops, tr) && n < |tr|
    ensures Inv(digest, tr[n])
    decreases n
  {
    if n > 0 {
      InvHolds(c, digest, ops, tr, n - 1);
      assert IsStep(c, digest, ops, tr, n - 1);
      StepKeeps(c, digest, tr[n - 1], ops[n - 1]);
    }
  }

  // ---- The operation behind a read -----------------------------------------------

  predicate Asks(op: Op) {
    op.Gate? && op.l.StartApprove?
  }

  predicate FollowsUp(s: System, op: Op) {
    op.Follow? && op.h in s.handlers
  }

  // The binding the link of op had redeemed.
  function Followed(s: System, op: Op): Binding
    requires FollowsUp(s, op)
  {
    s.handlers[op.h]
  }

  // Operation i started the approve call that read at position r.
  predicate AskedBy(ops: seq<Op>, tr: seq<System>, i: nat, r: nat)
    requires |tr| == |ops| + 1
  {
    && i < |ops| && |tr[i].gate.hist| == r < |tr[i + 1].gate.hist|
    && (Asks(ops[i]) || FollowsUp(tr[i], ops[i]))
  }

  lemma StepGrows(c: Config, digest: string -> string, s: System, op: Op)
    ensures s.gate.hist <= Step(c, digest, s, op).gate.hist
    ensures |Step(c, digest, s, op).gate.hist| <= |s.gate.hist| + 1
  {
    if op.Gate? {
      HistoryGrows(c, s.gate, op.l);
    } else if op.Follow? && op.h in s.handlers {
      HistoryGrows(c, s.gate, StartApprove(op.t, s.handlers[op.h].task, s.handlers[op.h].hash));
    }
  }

  lemma ReadIsStarted(c: Config, s: State, l: Label)
    ensures var hist := GateModel.Next(c, s, l).hist;
      |hist| > |s.hist| && hist[|s.hist|].Read? ==>
        l.StartApprove? && hist[|s.hist|].id == l.id && hist[|s.hist|].want == l.want
  {
    if l.StartApprove? {
      StartShape(s, l.t, l.id, l.want);
    } else if l.Approve? {
      if l.t in s.approvers { MoveShape(s, l.t, l.env); }
    } else {
      OthersAside(c, s, l);
    }
  }

  // op asked, in state s, for an approval of this version.
  predicate Names(s: System, op: Op, id: string, want: string) {
    || (Asks(op) && op.l.id == id && op.l.want == want)
    || (FollowsUp(s, op) && Followed(s, op).task == id && Followed(s, op).hash == want)
  }

  lemma StepReads(c: Config, digest: string -> string, s: System, op: Op)
    ensures var hist := Step(c, digest, s, op).gate.hist;
      |hist| > |s.gate.hist| && hist[|s.gate.hist|].Read? ==>
        Names(s, op, hist[|s.gate.hist|].id, hist[|s.gate.hist|].want)
  {
    if op.Gate? {
      ReadIsStarted(c, s.gate, op.l);
    } else if op.Follow? && op.h in s.handlers {
      ReadIsStarted(c, s.gate, StartApprove(op.t, s.handlers[op.h].task, s.handlers[op.h].hash));
    }
  }

  // Every read of an approve call has one operation behind it, which named the task
  // and hash of the read.
  lemma {:induction false} ReadHasOp(
    c: Config, digest: string -> string, ops: seq<Op>, tr: seq<System>, n: nat, r: nat) returns (i: nat)
    requires IsRun(c, digest, ops, tr) && n < |tr| && r < |tr[n].gate.hist| && tr[n].gate.hist[r].Read?
    ensures i < n && AskedBy(ops, tr, i, r) && Names(tr[i], ops[i], tr[n].gate.hist[r].id, tr[n].gate.hist[r].want)
    decreases n
  {
    if n > 0 {
      assert IsStep(c, digest, ops, tr, n - 1);
      StepGrows(c, digest, tr[n - 1], ops[n - 1]);
      if r < |tr[n - 1].gate.hist| {
        i := ReadHasOp(c, digest, ops, tr, n - 1, r);
      } else {
        i := n - 1;
        StepReads(c, digest, tr[i], ops[i]);
      }
    }
  }

  // ---- What a token-bound approval records ----------------------------------------

  // A record written by a token-bound approval comes from one operation, the one
  // that started the approve call and named its task and hash. If that was a link,
  // they are those its token was minted for, the token was redeemed within its TTL,
  // and no attempt had reached it before.
  lemma LinkGrantsWhatItWasMintedFor(
    c: Config, digest: string -> string, ops: seq<Op>, tr: seq<System>, g: nat) returns (i: nat)
    requires Tokens.Injective(digest) && IsRun(c, digest, ops, tr)
    requires var hist := tr[|ops|].gate.hist; g < |hist| && hist[g].Granted? && hist[g].via == TokenLink
    ensures
      var e := tr[|ops|].gate.hist[g];
      && e.read < g && AskedBy(ops, tr, i, e.read) && Names(tr[i], ops[i], e.id, e.hash)
      && (FollowsUp(tr[i], ops[i]) ==> SoundRedemption(digest, tr[i].calls, Followed(tr[i], ops[i])))
  {
    var s := tr[|ops|];
    var hist, e := s.gate.hist, s.gate.hist[g];
    GateRuns(c, digest, ops, tr, |ops|);
    Justification(c, s.steps, g);
    assert hist[..g][e.read] == hist[e.read] && hist[..g][hist[e.read].gen] == hist[hist[e.read].gen];
    Justification(c, s.steps, e.read);
    i := ReadHasOp(c, digest, ops, tr, |ops|, e.read);
    if FollowsUp(tr[i], ops[i]) {
      InvHolds(c, digest, ops, tr, i);
      RedemptionIsSound(digest, tr[i].calls, Followed(tr[i], ops[i]));
    }
  }

  // The redemption gave what its token was minted for, in time and first.
  ghost predicate SoundRedemption(digest: string -> string, calls: seq<Tokens.Op>, b: Binding) {
    && Redeemed(digest, calls, b)
    && exists m: nat :: m < b.call && Tokens.MintedAt(digest, calls, m, calls[b.call].token, b.task, b.hash)
         && calls[b.call].now <= calls[m].now + Tokens.TTL
         && forall k :: m < k < b.call ==> !Tokens.ConsumedAt(digest, calls, k, calls[b.call].token)
  }

  lemma RedemptionIsSound(digest: string -> string, calls: seq<Tokens.Op>, b: Binding)
    requires Tokens.Injective(digest) && Redeemed(digest, calls, b)
    ensures SoundRedemption(digest, calls, b)
  {
    var m := Tokens.RedeemJustified(digest, calls, b.call);
  }

  // ---- Single use ------------------------------------------------------------------

  // Once followed up, a redemption is gone from the handlers for good.
  predicate Spent(s: System, call: nat) {
    call < |s.calls| && forall h :: h in s.handlers ==> s.handlers[h].call != call
  }

  lemma StepKeepsSpent(c: Config, digest: string -> string, s: System, op: Op, call: nat)
    requires Spent(s, call)
    ensures Spent(Step(c, digest, s, op), call)
  {
    if op.Link? {
      if op.h in s.handlers {} else {}
    } else if op.Follow? {
      if op.h in s.handlers {} else {}
    }
  }

  lemma {:induction false} StaysSpent(
    c: Config, digest: string -> string, ops: seq<Op>, tr: seq<System>, i: nat, n: nat, call: nat)
    requires IsRun(c, digest, ops, tr) && i <= n < |tr| && Spent(tr[i], call)
    ensures Spent(tr[n], call)
    decreases n
  {
    if i < n {
      StaysSpent(c, digest, ops, tr, i, n - 1, call);
      assert IsStep(c, digest, ops, tr, n - 1);
      StepKeepsSpent(c, digest, tr[n - 1], ops[n - 1], call);
    }
  }

  lemma FollowsDiffer(c: Config, digest: string -> string, ops: seq<Op>, tr: seq<System>, i: nat, j: nat)
    requires IsRun(c, digest, ops, tr) && i < j < |ops|
    requires FollowsUp(tr[i], ops[i]) && FollowsUp(tr[j], ops[j])
    ensures Followed(tr[i], ops[i]).call != Followed(tr[j], ops[j]).call
  {
    var call := Followed(tr[i], ops[i]).call;
    InvHolds(c, digest, ops, tr, i);
    assert IsStep(c, digest, ops, tr, i);
    assert Spent(tr[i + 1], call);
    StaysSpent(c, digest, ops, tr, i + 1, j, call);
  }

  // Two records written through links come from two redemptions: one redemption of a
  // token writes the lock at most once.
  lemma LinkGrantsAreSingleUse(
    c: Config, digest: string -> string, ops: seq<Op>, tr: seq<System>, f: nat, g: nat, i: nat, j: nat)
    requires IsRun(c, digest, ops, tr)
    requires var hist := tr[|ops|].gate.hist;
      && f < g < |hist| && hist[f].Granted? && hist[g].Granted?
      && AskedBy(ops, tr, i, hist[f].read) && AskedBy(ops, tr, j, hist[g].read)
    requires FollowsUp(tr[i], ops[i]) && FollowsUp(tr[j], ops[j])
    ensures Followed(tr[i], ops[i]).call != Followed(tr[j], ops[j]).call
  {
    GateRuns(c, digest, ops, tr, |ops|);
    OneGrantPerRead(c, tr[|ops|].steps, f, g);
    if i < j { FollowsDiffer(c, digest, ops, tr, i, j); }
    if j < i { FollowsDiffer(c, digest, ops, tr, j, i); }
  }
}
