/** The dashboard's session tokens: a table from token to expiry time that drops expired entries
    only when a token is created or a stale one is presented. */
module TokenTable {

  const AUTH_TOKEN_TTL := 3600.0

  datatype Operation = Create(token: string, at: real) | Verify(token: string, at: real)

  type Table = map<string, real>

  // ----- the full history, nothing ever dropped -----

  ghost predicate CreatedAt(ops: seq<Operation>, token: string, i: nat) {
    i < |ops| && ops[i].Create? && ops[i].token == token
  }

  /** A creation lasts an hour. */
  ghost function Expiry(ops: seq<Operation>, i: nat): real
    requires i < |ops|
  {
    ops[i].at + 3600.0
  }

  /** Some creation of the token is younger than the time to live. */
  ghost predicate Live(ops: seq<Operation>, token: string, now: real) {
    exists i: nat :: CreatedAt(ops, token, i) && now < Expiry(ops, i)
  }

  /** The empty token is never accepted. */
  ghost predicate Accepts(ops: seq<Operation>, token: string, now: real) {
    token != "" && Live(ops, token, now)
  }

  // ----- the table -----

  function Purge(table: Table, now: real): Table {
    map t | t in table && table[t] > now :: table[t]
  }

  function AfterCreate(table: Table, token: string, now: real): Table {
    Purge(table, now)[token := now + AUTH_TOKEN_TTL]
  }

  /** An expiry of zero counts as absent. */
  predicate Answer(table: Table, token: string, now: real) {
    token != "" && token in table && table[token] != 0.0 && table[token] > now
  }

  function AfterVerify(table: Table, token: string, now: real): Table {
    if token == "" || Answer(table, token, now) then table else table - {token}
  }

  function AfterOp(table: Table, op: Operation): Table {
    match op
    case Create(token, at) => AfterCreate(table, token, at)
    case Verify(token, at) => AfterVerify(table, token, at)
  }

  function AfterAll(ops: seq<Operation>): Table {
    if ops == [] then map[] else AfterOp(AfterAll(ops[..|ops| - 1]), ops[|ops| - 1])
  }

  // ----- which creation the table holds, for any clock -----

  /** The operation removes or replaces an entry of the token with this expiry. */
  ghost predicate Drops(op: Operation, token: string, expiry: real) {
    match op
    case Create(t, at) => t == token || at >= expiry
    case Verify(t, at) => t == token && token != "" && (at >= expiry || expiry == 0.0)
  }

  /** Creation i of the token is what the table still holds. */
  ghost predicate Kept(ops: seq<Operation>, token: string, i: nat) {
    CreatedAt(ops, token, i) && forall j :: i < j < |ops| ==> !Drops(ops[j], token, Expiry(ops, i))
  }

  /** The table holds the token with exactly the expiry of its kept creation. */
  ghost predicate Exact(table: Table, ops: seq<Operation>, token: string) {
    && (token in table ==> exists i: nat :: Kept(ops, token, i))
    && (forall i: nat :: Kept(ops, token, i) ==> token in table && table[token] == Expiry(ops, i))
  }

  lemma KeptStep(ops: seq<Operation>, op: Operation, token: string, i: nat)
    requires i < |ops|
    ensures Kept(ops + [op], token, i) <==> Kept(ops, token, i) && !Drops(op, token, Expiry(ops, i))
  {
    var now := ops + [op];
    assert now[|ops|] == op && forall k :: 0 <= k < |ops| ==> now[k] == ops[k];
  }

  lemma KeptLast(ops: seq<Operation>, op: Operation, token: string)
    ensures Kept(ops + [op], token, |ops|) <==> op.Create? && op.token == token
  {
  }

  lemma ExactStep(table: Table, ops: seq<Operation>, op: Operation, token: string)
    requires Exact(table, ops, token)
    ensures Exact(AfterOp(table, op), ops + [op], token)
  {
    var table', now := AfterOp(table, op), ops + [op];
    KeptLast(ops, op, token);
    forall i: nat | Kept(now, token, i)
      ensures token in table' && table'[token] == Expiry(now, i)
    {
      if i < |ops| {
        KeptStep(ops, op, token, i);
      }
    }
    if token in table' && !Kept(now, token, |ops|) {
      var i: nat :| Kept(ops, token, i);
      KeptStep(ops, op, token, i);
      assert Kept(now, token, i);
    }
  }

  /** For every clock, forwards or backwards: the token is in the table exactly when one of its
      creations was not followed by another one, by a creation of any token at or after its
      expiry, or by a verification of it at or after its expiry. */
  lemma {:induction false} TableExact(ops: seq<Operation>, token: string)
    ensures Exact(AfterAll(ops), ops, token)
  {
    if ops != [] {
      var front, op := ops[..|ops| - 1], ops[|ops| - 1];
      TableExact(front, token);
      ExactStep(AfterAll(front), front, op, token);
      assert front + [op] == ops;
    }
  }

  // ----- when the answer is that of the full history -----

  ghost predicate LatestCreation(ops: seq<Operation>, token: string, i: nat) {
    CreatedAt(ops, token, i) && forall j :: i < j < |ops| ==> !CreatedAt(ops, token, j)
  }

  /** The latest creation of the token no longer counts: it has expired, or a later operation
      read the clock at or after its expiry and dropped it. */
  ghost predicate Lost(ops: seq<Operation>, token: string, now: real) {
    exists i: nat :: LatestCreation(ops, token, i) &&
      var e := Expiry(ops, i);
      e <= now || e == 0.0 || exists j :: i < j < |ops| && Drops(ops[j], token, e)
  }

  lemma LatestUnique(ops: seq<Operation>, token: string, i: nat, j: nat)
    requires LatestCreation(ops, token, i) && LatestCreation(ops, token, j)
    ensures i == j
  {
    assert i < j ==> !CreatedAt(ops, token, j);
    assert j < i ==> !CreatedAt(ops, token, i);
  }

  lemma KeptIsLatest(ops: seq<Operation>, token: string, i: nat)
    requires Kept(ops, token, i)
    ensures LatestCreation(ops, token, i)
  {
    forall j | i < j < |ops|
      ensures !CreatedAt(ops, token, j)
    {
      assert !Drops(ops[j], token, Expiry(ops, i));
    }
  }

  lemma {:induction false} HasLatest(ops: seq<Operation>, token: string, i: nat) returns (k: nat)
    requires CreatedAt(ops, token, i)
    ensures LatestCreation(ops, token, k)
    decreases |ops| - i
  {
    if j: nat :| i < j < |ops| && CreatedAt(ops, token, j) {
      k := HasLatest(ops, token, j);
    } else {
      k := i;
    }
  }

  lemma AnswerMeansKept(ops: seq<Operation>, token: string, now: real)
    requires Answer(AfterAll(ops), token, now)
    ensures Accepts(ops, token, now) && !Lost(ops, token, now)
  {
    TableExact(ops, token);
    var i: nat :| Kept(ops, token, i);
    KeptIsLatest(ops, token, i);
    forall k: nat | LatestCreation(ops, token, k)
      ensures k == i
    {
      LatestUnique(ops, token, i, k);
    }
  }

  lemma KeptMeansAnswer(ops: seq<Operation>, token: string, now: real)
    requires Accepts(ops, token, now) && !Lost(ops, token, now)
    ensures Answer(AfterAll(ops), token, now)
  {
    TableExact(ops, token);
    var i: nat :| CreatedAt(ops, token, i);
    var k := HasLatest(ops, token, i);
    assert Kept(ops, token, k);
  }

  /** For every clock: a token verifies exactly when the full history accepts it and its latest
      creation was not lost to a clock reading at or after its expiry; so the table disagrees
      with the history exactly on accepted tokens that were lost. */
  lemma AnswerExact(ops: seq<Operation>, token: string, now: real)
    ensures Answer(AfterAll(ops), token, now) <==> Accepts(ops, token, now) && !Lost(ops, token, now)
    ensures (Answer(AfterAll(ops), token, now) <==> Accepts(ops, token, now))
       <==> !(Accepts(ops, token, now) && Lost(ops, token, now))
  {
    if Answer(AfterAll(ops), token, now) {
      AnswerMeansKept(ops, token, now);
    }
    if Accepts(ops, token, now) && !Lost(ops, token, now) {
      KeptMeansAnswer(ops, token, now);
    }
  }

  /** The clock starts at or after the epoch and never runs backwards. */
  ghost predicate Clocked(ops: seq<Operation>) {
    && (forall i :: 0 <= i < |ops| ==> 0.0 <= ops[i].at)
    && (forall i, j :: 0 <= i < j < |ops| ==> ops[i].at <= ops[j].at)
  }

  function LastTime(ops: seq<Operation>): real {
    if ops == [] then 0.0 else ops[|ops| - 1].at
  }

  lemma ClockedKeepsLive(ops: seq<Operation>, token: string, now: real)
    requires Clocked(ops) && LastTime(ops) <= now && Live(ops, token, now)
    ensures !Lost(ops, token, now)
  {
    var m: nat :| CreatedAt(ops, token, m) && now < Expiry(ops, m);
    forall i: nat | LatestCreation(ops, token, i)
      ensures var e := Expiry(ops, i); now < e && e != 0.0 && forall j :: i < j < |ops| ==> !Drops(ops[j], token, e)
    {
      assert i < m ==> !CreatedAt(ops, token, m);
      assert ops[m].at <= ops[i].at;
      forall j | i < j < |ops|
        ensures !Drops(ops[j], token, Expiry(ops, i))
      {
        assert !CreatedAt(ops, token, j);
        assert ops[j].at <= LastTime(ops);
      }
    }
  }

  /** Under a clock that never runs back, dropping entries is never observable: after any
      interleaving of creations and verifications, a token verifies exactly when one of its
      creations is less than an hour old. */
  lemma PurgingUnobservable(ops: seq<Operation>, token: string, now: real)
    requires Clocked(ops) && LastTime(ops) <= now
    ensures Answer(AfterAll(ops), token, now) <==> Accepts(ops, token, now)
  {
    AnswerExact(ops, token, now);
    if Live(ops, token, now) {
      ClockedKeepsLive(ops, token, now);
    }
  }

  /** A clock set back makes a dropped entry observable. */
  lemma ClockMustNotRunBack()
    ensures var ops := [Create("a", 0.0), Create("b", 4000.0)];
            !Answer(AfterAll(ops), "a", 100.0) && Accepts(ops, "a", 100.0)
  {
    var ops := [Create("a", 0.0), Create("b", 4000.0)];
    assert CreatedAt(ops, "a", 0);
    assert "a"[0] != "b"[0];
    assert LatestCreation(ops, "a", 0) && Drops(ops[1], "a", Expiry(ops, 0));
    AnswerExact(ops, "a", 100.0);
  }

  /** After a verification fails, the token is gone; after a creation, no expired entry is left. */
  lemma {:induction false} TableStaysSmall(ops: seq<Operation>, token: string, now: real)
    ensures !Answer(AfterAll(ops), token, now) && token != "" ==> token !in AfterAll(ops + [Verify(token, now)])
    ensures forall t :: t in AfterAll(ops + [Create(token, now)]) ==> AfterAll(ops + [Create(token, now)])[t] > now
  {
    assert (ops + [Verify(token, now)])[..|ops|] == ops;
    assert (ops + [Create(token, now)])[..|ops|] == ops;
  }

  /** The table with its lock: each method body runs under the lock, at whatever time its clock
      shows. */
  class Tokens {
    var activeTokens: Table
    ghost var ops: seq<Operation>

    ghost predicate Valid()
      reads this
    {
      activeTokens == AfterAll(ops)
    }

    constructor ()
      ensures Valid() && ops == []
    {
      activeTokens := map[];
      ops := [];
    }

    method CreateToken(token: string, now: real)
      requires Valid()
      modifies this
      ensures Valid() && ops == old(ops) + [Create(token, now)]
    {
      ghost var before := ops;
      ops := ops + [Create(token, now)];
      assert ops[..|ops| - 1] == before;
      activeTokens := map t | t in activeTokens && activeTokens[t] > now :: activeTokens[t];
      activeTokens := activeTokens[token := now + AUTH_TOKEN_TTL];
    }

    /** The answer is the one the full history of creations gives, unless the clock ran back. */
    method VerifyToken(token: string, now: real) returns (ok: bool)
      requires Valid()
      modifies this
      ensures Valid() && ops == old(ops) + [Verify(token, now)]
      ensures ok <==> Accepts(old(ops), token, now) && !Lost(old(ops), token, now)
      ensures Clocked(old(ops)) && LastTime(old(ops)) <= now ==> (ok <==> Accepts(old(ops), token, now))
    {
      AnswerExact(ops, token, now);
      ghost var before := ops;
      if Clocked(ops) && LastTime(ops) <= now {
        PurgingUnobservable(ops, token, now);
      }
      ops := ops + [Verify(token, now)];
      assert ops[..|ops| - 1] == before;
      if token == "" {
        return false;
      }
      if token in activeTokens && activeTokens[token] != 0.0 && activeTokens[token] > now {
        return true;
      }
      activeTokens := activeTokens - {token};
      return false;
    }
  }
}
