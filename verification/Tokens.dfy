// Single-use approve-link tokens (pkg/approval/token.go). Only the digest of a
// token is stored; the digest is a parameter, injective where it has to be.
module Tokens {
  import opened Records

  const TTL := 86400
  const PREFIX := "dcap_"

  datatype Row = Row(task: string, hash: string, expires: int)

  type Rows = map<string, Row>

  function TokenOf(raw: string): string { PREFIX + raw }

  ghost predicate Injective(digest: string -> string) {
    forall a, b :: digest(a) == digest(b) ==> a == b
  }

  // ---- The store ------------------------------------------------------------

  datatype Answer =
    | Minted(token: string)
    | Bound(task: string, hash: string)
    | Refused
    | Invalid
    | Expired
    | Failed

  // One call. now is the clock in seconds; db, gc and stored tell which of the
  // statements of the call succeed.
  datatype Op =
    | Mint(raw: string, task: string, hash: string, now: int, gc: bool, stored: bool)
    | Peek(token: string, now: int, db: bool)
    | Redeem(token: string, now: int, db: bool)

  function Collected(rows: Rows, now: int): Rows {
    map k | k in rows && rows[k].expires >= now :: rows[k]
  }

  function AfterOp(digest: string -> string, rows: Rows, op: Op): Rows {
    match op
    case Mint(raw, task, hash, now, gc, stored) =>
      if task == "" || hash == "" then rows
      else
        var kept := if gc then Collected(rows, now) else rows;
        var key := digest(TokenOf(raw));
        if stored && key !in kept then kept[key := Row(task, hash, now + TTL)] else kept
    case Peek(_, _, _) => rows
    case Redeem(token, _, db) => if db && PREFIX <= token then rows - {digest(token)} else rows
  }

  function AnswerOf(digest: string -> string, rows: Rows, op: Op): Answer {
    match op
    case Mint(raw, task, hash, now, gc, stored) =>
      if task == "" || hash == "" then Refused
      else
        var kept := if gc then Collected(rows, now) else rows;
        if stored && digest(TokenOf(raw)) !in kept then Minted(TokenOf(raw)) else Failed
    case Peek(token, now, db) => Validated(digest, rows, token, now, db)
    case Redeem(token, now, db) => Validated(digest, rows, token, now, db)
  }

  function Validated(digest: string -> string, rows: Rows, token: string, now: int, db: bool): Answer {
    if !(PREFIX <= token) then Invalid
    else if !db then Failed
    else if digest(token) !in rows then Invalid
    else if now > rows[digest(token)].expires then Expired
    else Bound(rows[digest(token)].task, rows[digest(token)].hash)
  }

  class TokenStore {
    const digest: string -> string
    var rows: Rows

    constructor (digest: string -> string)
      ensures this.digest == digest && rows == map[]
    {
      this.digest := digest;
      rows := map[];
    }

    method Mint(raw: string, task: string, hash: string, now: int, gc: bool, stored: bool) returns (answer: Answer)
      modifies this`rows
      ensures rows == AfterOp(digest, old(rows), Op.Mint(raw, task, hash, now, gc, stored))
      ensures answer == AnswerOf(digest, old(rows), Op.Mint(raw, task, hash, now, gc, stored))
      // A token lives for a day; a collection that works leaves no expired row and takes
      // no other; whatever else was there stays.
      ensures answer.Minted? ==>
        && answer.token == "dcap_" + raw && task != "" && hash != "" && digest(answer.token) in rows
        && rows[digest(answer.token)] == Row(task, hash, now + 24 * 60 * 60)
        && (gc ==> forall k :: k in rows ==> rows[k].expires >= now)
      ensures forall k :: k in old(rows) && !(gc && old(rows)[k].expires < now) ==>
        k in rows && rows[k] == old(rows)[k]
      ensures forall k :: k in rows && k !in old(rows) ==> answer.Minted? && k == digest(answer.token)
      ensures answer == Refused <==> task == "" || hash == ""
    {
      if task == "" || hash == "" { return Refused; }
      var token := PREFIX + raw;
      if gc { rows := map k | k in rows && !(rows[k].expires < now) :: rows[k]; }
      if !stored || digest(token) in rows { return Failed; }
      rows := rows[digest(token) := Row(task, hash, now + TTL)];
      return Minted(token);
    }

    // The row of a token, or the answer of a failed lookup.
    method Lookup(token: string, db: bool) returns (row: Option<Row>, refusal: Answer)
      ensures row.Some? <==> PREFIX <= token && db && digest(token) in rows
      ensures row.Some? ==> row.value == rows[digest(token)]
      ensures row == None ==> refusal == if PREFIX <= token && !db then Failed else Invalid
    {
      row, refusal := None, Invalid;
      if |token| < |PREFIX| || token[..|PREFIX|] != PREFIX { return; }
      if !db { return None, Failed; }
      if digest(token) in rows { row := Some(rows[digest(token)]); }
    }

    method Peek(token: string, now: int, db: bool) returns (answer: Answer)
      ensures answer == AnswerOf(digest, rows, Op.Peek(token, now, db))
      // As a redemption at the same moment would answer.
      ensures answer == AnswerOf(digest, rows, Op.Redeem(token, now, db))
    {
      var row, refusal := Lookup(token, db);
      if row == None { return refusal; }
      if now > row.value.expires { return Expired; }
      return Bound(row.value.task, row.value.hash);
    }

    // The row goes before the answer is known to be a good one.
    method Redeem(token: string, now: int, db: bool) returns (answer: Answer)
      modifies this`rows
      ensures rows == AfterOp(digest, old(rows), Op.Redeem(token, now, db))
      ensures answer == AnswerOf(digest, old(rows), Op.Redeem(token, now, db))
      // Good until the moment it expires, and gone in any case.
      ensures forall task, hash :: answer == Bound(task, hash) <==>
        && db && "dcap_" <= token && digest(token) in old(rows)
        && old(rows)[digest(token)].task == task && old(rows)[digest(token)].hash == hash
        && now <= old(rows)[digest(token)].expires
      ensures db && "dcap_" <= token ==> rows == old(rows) - {digest(token)}
      ensures !db || !("dcap_" <= token) ==> rows == old(rows)
      ensures answer == Expired <==>
        db && "dcap_" <= token && digest(token) in old(rows) && now > old(rows)[digest(token)].expires
      ensures answer == Failed <==> "dcap_" <= token && !db
    {
      var row, refusal := Lookup(token, db);
      if row == None {
        assert db && PREFIX <= token ==> rows - {digest(token)} == rows;
        return refusal;
      }
      rows := rows - {digest(token)};
      if now > row.value.expires { return Expired; }
      return Bound(row.value.task, row.value.hash);
    }
  }

  // ---- Runs -----------------------------------------------------------------

  function After(digest: string -> string, ops: seq<Op>): Rows {
    if ops == [] then map[] else AfterOp(digest, After(digest, ops[..|ops| - 1]), ops[|ops| - 1])
  }

  function AnswerAt(digest: string -> string, ops: seq<Op>, i: nat): Answer
    requires i < |ops|
  {
    AnswerOf(digest, After(digest, ops[..i]), ops[i])
  }

  predicate Monotone(ops: seq<Op>) {
    forall i, j :: 0 <= i <= j < |ops| ==> ops[i].now <= ops[j].now
  }

  predicate MintedAt(digest: string -> string, ops: seq<Op>, m: nat, token: string, task: string, hash: string)
    requires m < |ops|
  {
    && ops[m].Mint? && TokenOf(ops[m].raw) == token && ops[m].task == task && ops[m].hash == hash
    && AnswerAt(digest, ops, m) == Minted(token)
  }

  predicate RedeemedAt(digest: string -> string, ops: seq<Op>, i: nat, token: string)
    requires i < |ops|
  {
    ops[i].Redeem? && ops[i].token == token && AnswerAt(digest, ops, i).Bound?
  }

  // A redemption attempt that finds the row.
  predicate Consumes(digest: string -> string, rows: Rows, op: Op, token: string) {
    var answer := AnswerOf(digest, rows, op);
    op.Redeem? && op.token == token && (answer.Bound? || answer == Expired)
  }

  predicate ConsumedAt(digest: string -> string, ops: seq<Op>, i: nat, token: string)
    requires i < |ops|
  {
    Consumes(digest, After(digest, ops[..i]), ops[i], token)
  }

  lemma NextOp(digest: string -> string, ops: seq<Op>, n: nat)
    requires n < |ops|
    ensures After(digest, ops[..n + 1]) == AfterOp(digest, After(digest, ops[..n]), ops[n])
  {
    assert ops[..n + 1][..n] == ops[..n];
  }

  // The mint a row comes from, and no redemption attempt reached it since.
  ghost predicate ComesFrom(digest: string -> string, ops: seq<Op>, n: nat, token: string, row: Row, m: nat)
    requires n <= |ops|
  {
    && m < n && MintedAt(digest, ops, m, token, row.task, row.hash) && row.expires == ops[m].now + TTL
    && row.task != "" && row.hash != ""
    && forall i :: m < i < n ==> !ConsumedAt(digest, ops, i, token)
  }

  // A row found after a call was there before, or the call minted it.
  lemma RowAfterOp(digest: string -> string, rows: Rows, op: Op, token: string)
    requires Injective(digest) && PREFIX <= token && digest(token) in AfterOp(digest, rows, op)
    ensures
      var row := AfterOp(digest, rows, op)[digest(token)];
      || (digest(token) in rows && rows[digest(token)] == row && !Consumes(digest, rows, op, token))
      || (op.Mint? && AnswerOf(digest, rows, op) == Minted(token) && TokenOf(op.raw) == token
          && op.task != "" && op.hash != "" && row == Row(op.task, op.hash, op.now + TTL))
  {
  }

  lemma {:induction false} RowOrigin(digest: string -> string, ops: seq<Op>, n: nat, token: string) returns (m: nat)
    requires Injective(digest) && n <= |ops| && PREFIX <= token
    requires digest(token) in After(digest, ops[..n])
    ensures ComesFrom(digest, ops, n, token, After(digest, ops[..n])[digest(token)], m)
    decreases n
  {
    assert n > 0;
    NextOp(digest, ops, n - 1);
    var before := After(digest, ops[..n - 1]);
    RowAfterOp(digest, before, ops[n - 1], token);
    if digest(token) in before && before[digest(token)] == After(digest, ops[..n])[digest(token)]
       && !Consumes(digest, before, ops[n - 1], token) {
      m := RowOrigin(digest, ops, n - 1, token);
    } else {
      m := n - 1;
    }
  }

  // A successful redemption answers with the binding of a mint of that very
  // token, at most the TTL ago, and is the first attempt on it since.
  lemma RedeemJustified(digest: string -> string, ops: seq<Op>, j: nat) returns (m: nat)
    requires Injective(digest) && j < |ops| && ops[j].Redeem? && AnswerAt(digest, ops, j).Bound?
    ensures m < j
    ensures MintedAt(digest, ops, m, ops[j].token, AnswerAt(digest, ops, j).task, AnswerAt(digest, ops, j).hash)
    ensures ops[m].task != "" && ops[m].hash != ""
    ensures ops[j].now <= ops[m].now + TTL
    ensures forall i :: m < i < j ==> !ConsumedAt(digest, ops, i, ops[j].token)
  {
    m := RowOrigin(digest, ops, j, ops[j].token);
  }

  // Two successful redemptions of one token have a mint of it between them; so a
  // token that is never drawn twice is redeemed at most once.
  lemma RedeemedOncePerMint(digest: string -> string, ops: seq<Op>, i: nat, j: nat)
    requires Injective(digest) && i < j < |ops|
    requires ops[j].Redeem? && RedeemedAt(digest, ops, j, ops[j].token) && ConsumedAt(digest, ops, i, ops[j].token)
    ensures exists m :: i < m < j && ops[m].Mint? && TokenOf(ops[m].raw) == ops[j].token
  {
    var m := RedeemJustified(digest, ops, j);
  }

  // ---- A live token stays redeemable ----------------------------------------

  // No call removes a row within its TTL but a redemption attempt on it.
  lemma RowOutlives(digest: string -> string, rows: Rows, op: Op, token: string)
    requires Injective(digest) && PREFIX <= token && digest(token) in rows
    requires op.now <= rows[digest(token)].expires && !Consumes(digest, rows, op, token)
    ensures digest(token) in AfterOp(digest, rows, op)
    ensures AfterOp(digest, rows, op)[digest(token)] == rows[digest(token)]
  {
  }

  lemma {:induction false} RowStays(digest: string -> string, ops: seq<Op>, m: nat, n: nat, token: string)
    requires Injective(digest) && Monotone(ops) && m < n < |ops| && PREFIX <= token
    requires ops[m].Mint? && MintedAt(digest, ops, m, token, ops[m].task, ops[m].hash)
    requires ops[n].now <= ops[m].now + TTL
    requires forall i :: m < i < n ==> !ConsumedAt(digest, ops, i, token)
    ensures digest(token) in After(digest, ops[..n])
    ensures After(digest, ops[..n])[digest(token)] == Row(ops[m].task, ops[m].hash, ops[m].now + TTL)
    decreases n
  {
    NextOp(digest, ops, n - 1);
    if n - 1 > m {
      assert ops[n - 1].now <= ops[n].now;
      RowStays(digest, ops, m, n - 1, token);
      assert !ConsumedAt(digest, ops, n - 1, token);
      RowOutlives(digest, After(digest, ops[..n - 1]), ops[n - 1], token);
    }
  }

  // Redemption succeeds exactly for a minted token within its TTL that no
  // attempt has reached since, whatever was minted or collected meanwhile.
  lemma RedeemSucceedsExactly(digest: string -> string, ops: seq<Op>, j: nat, task: string, hash: string)
    requires Injective(digest) && Monotone(ops) && j < |ops|
    requires ops[j].Redeem? && ops[j].db
    ensures AnswerAt(digest, ops, j) == Bound(task, hash) <==>
      exists m :: 0 <= m < j && MintedAt(digest, ops, m, ops[j].token, task, hash)
        && ops[j].now <= ops[m].now + TTL
        && forall i :: m < i < j ==> !ConsumedAt(digest, ops, i, ops[j].token)
  {
    var token := ops[j].token;
    if AnswerAt(digest, ops, j) == Bound(task, hash) {
      var m := RedeemJustified(digest, ops, j);
    }
    forall m | 0 <= m < j && MintedAt(digest, ops, m, token, task, hash) && ops[j].now <= ops[m].now + TTL
      && forall i :: m < i < j ==> !ConsumedAt(digest, ops, i, token)
      ensures AnswerAt(digest, ops, j) == Bound(task, hash)
    {
      RowStays(digest, ops, m, j, token);
    }
  }

  // ---- Garbage collection ---------------------------------------------------

  function WithoutGc(ops: seq<Op>): (r: seq<Op>) {
    seq(|ops|, i requires 0 <= i < |ops| => if ops[i].Mint? then ops[i].(gc := false) else ops[i])
  }

  // Random tokens are never drawn twice.
  predicate Fresh(ops: seq<Op>) {
    forall i, j :: 0 <= i < j < |ops| && ops[i].Mint? && ops[j].Mint? ==> ops[i].raw != ops[j].raw
  }

  // Collection has removed expired rows only.
  predicate Thinned(rows: Rows, full: Rows, now: int) {
    && (forall k :: k in rows ==> k in full && rows[k] == full[k])
    && (forall k :: k in full && k !in rows ==> full[k].expires < now)
  }

  lemma OpThins(digest: string -> string, rows: Rows, full: Rows, op: Op, now: int)
    requires Thinned(rows, full, op.now) && op.now <= now
    requires op.Mint? ==> digest(TokenOf(op.raw)) !in full
    ensures Thinned(AfterOp(digest, rows, op), AfterOp(digest, full, if op.Mint? then op.(gc := false) else op), now)
  {
  }

  lemma {:induction false} CollectionThins(digest: string -> string, ops: seq<Op>, n: nat)
    requires Injective(digest) && Monotone(ops) && Fresh(ops) && n < |ops|
    ensures Thinned(After(digest, ops[..n]), After(digest, WithoutGc(ops)[..n]), ops[n].now)
    decreases n
  {
    if n > 0 {
      CollectionThins(digest, ops, n - 1);
      NextOp(digest, ops, n - 1);
      NextOp(digest, WithoutGc(ops), n - 1);
      if ops[n - 1].Mint? { FreshKey(digest, ops, n - 1); }
      OpThins(digest, After(digest, ops[..n - 1]), After(digest, WithoutGc(ops)[..n - 1]), ops[n - 1], ops[n].now);
    }
  }

  // The key a mint writes is not in use, collected or not.
  lemma FreshKey(digest: string -> string, ops: seq<Op>, n: nat)
    requires Injective(digest) && Fresh(ops) && n < |ops| && ops[n].Mint?
    ensures digest(TokenOf(ops[n].raw)) !in After(digest, WithoutGc(ops)[..n])
  {
    var bare := WithoutGc(ops);
    var token := TokenOf(ops[n].raw);
    if digest(token) in After(digest, bare[..n]) {
      var m := RowOrigin(digest, bare, n, token);
      SameRaw(bare[m].raw, ops[n].raw);
      assert false;
    }
  }

  lemma SameRaw(a: string, b: string)
    ensures TokenOf(a) == TokenOf(b) ==> a == b
  {
    assert TokenOf(a)[|PREFIX|..] == a && TokenOf(b)[|PREFIX|..] == b;
  }

  // All that collection changes in any run: an answer "expired" may become
  // "invalid".
  lemma CollectionOnlyHidesExpired(digest: string -> string, ops: seq<Op>, i: nat)
    requires Injective(digest) && Monotone(ops) && Fresh(ops) && i < |ops|
    ensures
      var with, bare := AnswerAt(digest, ops, i), AnswerAt(digest, WithoutGc(ops), i);
      with == bare || (bare == Expired && with == Invalid)
  {
    CollectionThins(digest, ops, i);
    if ops[i].Mint? { FreshKey(digest, ops, i); }
  }
}
