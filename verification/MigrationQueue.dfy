/**
 The deduplicating enqueue of migrations: a request attaches to an identical
 migration that can stand for it, unless a different one arrived since in the same
 scope.  Rows are kept in arrival order, which the enqueue lock makes total.
 */
module MigrationQueue {
  import opened Common

  // ------------------------------------------------------- the dedup key

  const WORD := 0x1_0000_0000_0000_0000

  /** A string whose length an eight-byte word holds, as every string's does. */
  type Text = s: string | |s| < 0x8000_0000_0000_0000 witness ""

  /** A request, `meta` being its metadata as the key encodes it, and `secret` that
      it carries a password or a verifier. */
  datatype Migration = Migration(database: Text, statement: Text, kind: Text, strategy: Text, scope: Text, meta: Text,
                                 metaDatabase: Option<Text>, secret: bool)

  /** The n low bytes of x, the most significant first. */
  function BigEndian(x: nat, n: nat): (r: seq<nat>)
    ensures |r| == n
  {
    if n == 0 then [] else BigEndian(x / 256, n - 1) + [x % 256]
  }

  function Power256(n: nat): nat {
    if n == 0 then 1 else 256 * Power256(n - 1)
  }

  lemma {:induction false} BigEndianInjective(x: nat, y: nat, n: nat)
    requires x < Power256(n) && y < Power256(n) && BigEndian(x, n) == BigEndian(y, n)
    ensures x == y
  {
    if n > 0 {
      var dx, dy := BigEndian(x, n), BigEndian(y, n);
      assert BigEndian(x / 256, n - 1) == dx[..n-1] && BigEndian(y / 256, n - 1) == dy[..n-1];
      assert dx[n-1] == x % 256 && dy[n-1] == y % 256;
      BigEndianInjective(x / 256, y / 256, n - 1);
    }
  }

  function Codes(s: string): (r: seq<nat>)
    ensures |r| == |s| && forall i | 0 <= i < |s| :: r[i] == s[i] as int
  {
    seq(|s|, i requires 0 <= i < |s| => s[i] as int)
  }

  lemma CodesInjective(a: string, b: string)
    requires Codes(a) == Codes(b)
    ensures a == b
  {
    assert |a| == |b|;
    forall i | 0 <= i < |a| ensures a[i] == b[i] {
      assert Codes(a)[i] == Codes(b)[i];
    }
  }

  /** The bytes the key hashes: every part behind its length. */
  function Encode(parts: seq<Text>): seq<nat> {
    if parts == [] then [] else BigEndian(|parts[0]|, 8) + Codes(parts[0]) + Encode(parts[1..])
  }

  lemma EightBytes()
    ensures Power256(8) == WORD
  {
    assert Power256(4) == 0x1_0000_0000;
    assert Power256(6) == 0x1_0000_0000_0000;
  }

  /** Two encodings of as many parts are the same only for the same parts: no part
      can be shifted into its neighbour. */
  lemma {:induction false} EncodeInjective(a: seq<Text>, b: seq<Text>)
    requires |a| == |b| && Encode(a) == Encode(b)
    ensures a == b
  {
    if a != [] {
      var ea, eb, na, nb := Encode(a), Encode(b), |a[0]|, |b[0]|;
      assert ea[..8] == BigEndian(na, 8) && eb[..8] == BigEndian(nb, 8);
      EightBytes();
      BigEndianInjective(na, nb, 8);
      assert ea[8..8+na] == Codes(a[0]) && eb[8..8+na] == Codes(b[0]);
      CodesInjective(a[0], b[0]);
      assert ea[8+na..] == Encode(a[1..]) && eb[8+na..] == Encode(b[1..]);
      EncodeInjective(a[1..], b[1..]);
      assert a == [a[0]] + a[1..] && b == [b[0]] + b[1..];
    }
  }

  /** The identity of a migration, none for one with a secret; the hash of it is
      taken to be collision-free. */
  function DedupKey(m: Migration): Option<seq<nat>> {
    if m.secret then None else Some(Encode([m.database, m.statement, m.kind, m.strategy, m.scope, m.meta]))
  }

  lemma KeyIdentifies(x: Migration, y: Migration)
    requires DedupKey(x).Some? && DedupKey(x) == DedupKey(y)
    ensures x.database == y.database && x.statement == y.statement && x.kind == y.kind
    ensures x.strategy == y.strategy && x.scope == y.scope && x.meta == y.meta
  {
    var px := [x.database, x.statement, x.kind, x.strategy, x.scope, x.meta];
    var py := [y.database, y.statement, y.kind, y.strategy, y.scope, y.meta];
    EncodeInjective(px, py);
    assert px[0] == py[0] && px[1] == py[1] && px[2] == py[2] && px[3] == py[3] && px[4] == py[4] && px[5] == py[5];
  }

  // -------------------------------------------------------- the enqueue

  datatype Status = Queued | Running | Complete(at: int) | Failed

  datatype Row = Row(m: Migration, status: Status)

  predicate Repeatable(kind: string) {
    kind == "REINDEX" || kind == "VACUUM" || kind == "ALTER SEQUENCE"
  }

  predicate ClusterScoped(kind: string) {
    kind in {"CREATE ROLE", "ALTER ROLE", "DROP ROLE", "GRANT ROLE", "REVOKE ROLE", "CREATE DATABASE", "DROP DATABASE"}
  }

  predicate Live(x: Row) {
    x.status == Queued || x.status == Running
  }

  /** The row can stand for a new request with the key. */
  predicate StandsFor(x: Row, key: seq<nat>, now: int, window: int) {
    && DedupKey(x.m) == Some(key)
    && (Live(x) || (x.status.Complete? && x.status.at >= now - window && !Repeatable(x.m.kind)))
  }

  /** The latest row that can stand for the request. */
  function Latest(rows: seq<Row>, key: seq<nat>, now: int, window: int): (r: Option<nat>)
    ensures r.Some? ==> r.value < |rows| && StandsFor(rows[r.value], key, now, window)
    ensures forall i | (if r.Some? then r.value + 1 else 0) <= i < |rows| :: !StandsFor(rows[i], key, now, window)
  {
    if rows == [] then None
    else if StandsFor(rows[|rows|-1], key, now, window) then Some(|rows| - 1)
    else Latest(rows[..|rows|-1], key, now, window)
  }

  /** A row of the same scope as the request: either of them is about the whole
      cluster, or the row is about the request's database. */
  predicate SameScope(m: Migration, y: Migration) {
    ClusterScoped(m.kind) || ClusterScoped(y.kind) || y.database == m.database || y.metaDatabase == Some(m.database)
  }

  /** A different migration of the same scope arrived after row i. */
  predicate Overtaken(rows: seq<Row>, i: nat, m: Migration) {
    exists j | i < j < |rows| :: DedupKey(rows[j].m) != DedupKey(m) && SameScope(m, rows[j].m)
  }

  /** The row the request attaches to, if it does. */
  function Attaches(rows: seq<Row>, m: Migration, now: int, window: int): (r: Option<nat>)
    ensures r.Some? ==> r.value < |rows| && DedupKey(m).Some? && DedupKey(rows[r.value].m) == DedupKey(m)
  {
    if DedupKey(m).None? then None
    else
      var c := Latest(rows, DedupKey(m).value, now, window);
      if c.Some? && !Overtaken(rows, c.value, m) then c else None
  }

  /** In terms of the migrations: a request attaches to row i exactly when row i is the
      same statement by everything it runs with, queued, running, or completed within the
      window and not of a kind that is work again, none such came later, and nothing
      different of its scope did. */
  lemma AttachesExactly(rows: seq<Row>, m: Migration, now: int, window: int, i: nat)
    ensures Attaches(rows, m, now, window) == Some(i) <==>
      && i < |rows| && Answers(rows[i], m, now, window)
      && (forall j | i < j < |rows| :: !Answers(rows[j], m, now, window))
      && (forall j | i < j < |rows| && SameScope(m, rows[j].m) :: Same(rows[j].m, m))
  {
    forall j | 0 <= j < |rows|
      ensures Same(rows[j].m, m) <==> DedupKey(m).Some? && DedupKey(rows[j].m) == DedupKey(m)
    {
      SameIffKey(rows[j].m, m);
    }
    if !m.secret {
      var key := DedupKey(m).value;
      assert forall j | 0 <= j < |rows| :: StandsFor(rows[j], key, now, window) <==> Answers(rows[j], m, now, window);
    }
  }

  /** One and the same request. */
  predicate Same(x: Migration, y: Migration) {
    && !x.secret && !y.secret && x.database == y.database && x.statement == y.statement && x.kind == y.kind
    && x.strategy == y.strategy && x.scope == y.scope && x.meta == y.meta
  }

  lemma SameIffKey(x: Migration, y: Migration)
    ensures Same(x, y) <==> DedupKey(y).Some? && DedupKey(x) == DedupKey(y)
  {
    if DedupKey(y).Some? && DedupKey(x) == DedupKey(y) {
      KeyIdentifies(x, y);
    }
  }

  predicate Answers(x: Row, m: Migration, now: int, window: int) {
    && Same(x.m, m)
    && (x.status == Queued || x.status == Running || (x.status.Complete? && now - x.status.at <= window && !Repeatable(m.kind)))
  }

  /** Maintenance and sequence statements are work again whenever they are sent: they never
      attach to one that has completed, and every other kind does, within the window. */
  lemma WhatACompletedRowAnswers(rows: seq<Row>, m: Migration, now: int, window: int, i: nat)
    requires i < |rows| && rows[i].m == m && !m.secret && rows[i].status.Complete? && rows[i].status.at == now && window >= 0
    ensures m.kind in {"REINDEX", "VACUUM", "ALTER SEQUENCE"} ==> Attaches(rows, m, now, window) != Some(i)
    ensures m.kind !in {"REINDEX", "VACUUM", "ALTER SEQUENCE"} && i == |rows| - 1 ==> Attaches(rows, m, now, window) == Some(i)
  {
    AttachesExactly(rows, m, now, window, i);
  }

  /** Whatever different statement came after row i for the request's database, in its
      metadata or as the database it runs in, or about a role or a database, the request
      gets a row of its own; and so does one that is about a role or a database itself. */
  lemma WhatOvertakes(rows: seq<Row>, m: Migration, now: int, window: int, i: nat, j: nat)
    requires i < j < |rows| && !Same(rows[j].m, m)
    requires var y, global := rows[j].m, {"CREATE ROLE", "ALTER ROLE", "DROP ROLE", "GRANT ROLE", "REVOKE ROLE", "CREATE DATABASE", "DROP DATABASE"};
      y.database == m.database || y.metaDatabase == Some(m.database) || y.kind in global || m.kind in global
    ensures Attaches(rows, m, now, window) != Some(i)
  {
    AttachesExactly(rows, m, now, window, i);
  }

  /** Which row answers the request, whether it was there already, and whether the
      same statement sent again would attach to it. */
  datatype Enqueued = Enqueued(id: nat, attached: bool, status: Status, deduplicated: bool)

  class MigrationTable {
    var rows: seq<Row>

    constructor ()
      ensures rows == []
    {
      rows := [];
    }

    method EnqueueOnce(m: Migration, now: int, window: int) returns (r: Enqueued)
      modifies this
      ensures r.id < |rows| && DedupKey(rows[r.id].m) == DedupKey(m) && r.status == rows[r.id].status
      ensures r.deduplicated <==> !m.secret
      ensures r.attached <==> Attaches(old(rows), m, now, window).Some?
      ensures r.attached ==> rows == old(rows) && Some(r.id) == Attaches(rows, m, now, window)
      ensures r.attached ==> forall j | r.id < j < |rows| && SameScope(m, rows[j].m) :: DedupKey(rows[j].m) == DedupKey(m)
      ensures !r.attached ==> rows == old(rows) + [Row(m, Queued)] && r.id == |old(rows)|
    {
      var key := DedupKey(m);
      if key.Some? {
        var c := Latest(rows, key.value, now, window);
        if c.Some? && !Overtaken(rows, c.value, m) {
          return Enqueued(c.value, true, rows[c.value].status, true);
        }
      }
      rows := rows + [Row(m, Queued)];
      r := Enqueued(|rows| - 1, false, Queued, key.Some?);
    }
  }

  // ---------------------------------------------------------- histories

  /** The table, and every request ever made of it in the order the lock gave. */
  datatype State = State(rows: seq<Row>, requested: seq<Migration>)

  datatype Action =
    | Request(m: Migration, now: int, window: int)
    | Progress(i: nat, status: Status)

  /** A row's status moves on, and one that has ended does not start again. */
  predicate Enabled(s: State, a: Action) {
    match a
    case Request(_, _, _) => true
    case Progress(i, status) => i < |s.rows| && (Live(Row(s.rows[i].m, status)) ==> Live(s.rows[i]))
  }

  function Do(s: State, a: Action): State
    requires Enabled(s, a)
  {
    match a
    case Request(m, now, window) =>
      State(if Attaches(s.rows, m, now, window).Some? then s.rows else s.rows + [Row(m, Queued)], s.requested + [m])
    case Progress(i, status) => s.(rows := s.rows[i := s.rows[i].(status := status)])
  }

  ghost predicate IsRun(ss: seq<State>, acts: seq<Action>) {
    && |ss| == |acts| + 1 && ss[0] == State([], [])
    && forall i | 0 <= i < |acts| :: Enabled(ss[i], acts[i]) && ss[i+1] == Do(ss[i], acts[i])
  }

  /** About the database, or about the whole cluster. */
  predicate Concerns(m: Migration, database: string) {
    ClusterScoped(m.kind) || m.database == database
  }

  function Migrations(rows: seq<Row>): (r: seq<Migration>)
    ensures |r| == |rows| && forall i | 0 <= i < |rows| :: r[i] == rows[i].m
  {
    seq(|rows|, i requires 0 <= i < |rows| => rows[i].m)
  }

  /** The keys of the migrations that concern the database, in order. */
  function Keys(ms: seq<Migration>, database: string): seq<Option<seq<nat>>> {
    if ms == [] then []
    else
      var last := ms[|ms|-1];
      if Concerns(last, database) then Keys(ms[..|ms|-1], database) + [DedupKey(last)] else Keys(ms[..|ms|-1], database)
  }

  /** Adjacent repeats of one key collapsed; a migration without a key repeats none. */
  function Collapse(keys: seq<Option<seq<nat>>>): (r: seq<Option<seq<nat>>>)
    ensures keys != [] ==> r != [] && r[|r|-1] == keys[|keys|-1]
    ensures keys == [] ==> r == []
  {
    if keys == [] then []
    else
      var rest, last := Collapse(keys[..|keys|-1]), keys[|keys|-1];
      if rest != [] && last.Some? && rest[|rest|-1] == last then rest else rest + [last]
  }

  lemma KeysAppend(ms: seq<Migration>, m: Migration, database: string)
    ensures Keys(ms + [m], database) == if Concerns(m, database) then Keys(ms, database) + [DedupKey(m)] else Keys(ms, database)
  {
    assert (ms + [m])[..|ms|] == ms;
  }

  lemma CollapseAppend(keys: seq<Option<seq<nat>>>, k: Option<seq<nat>>)
    ensures var rest := Collapse(keys);
      Collapse(keys + [k]) == if rest != [] && k.Some? && rest[|rest|-1] == k then rest else rest + [k]
  {
    assert (keys + [k])[..|keys|] == keys;
  }

  /** When nothing that concerns the database since row i has another key, the last
      key that concerns it is row i's. */
  lemma {:induction false} LastKey(ms: seq<Migration>, i: nat, database: string)
    requires i < |ms| && Concerns(ms[i], database)
    requires forall j | i < j < |ms| && Concerns(ms[j], database) :: DedupKey(ms[j]) == DedupKey(ms[i])
    ensures var keys := Keys(ms, database); keys != [] && keys[|keys|-1] == DedupKey(ms[i])
    decreases |ms|
  {
    if i < |ms| - 1 && !Concerns(ms[|ms|-1], database) {
      LastKey(ms[..|ms|-1], i, database);
    }
  }

  ghost predicate Faithful(s: State) {
    forall database: string :: Collapse(Keys(Migrations(s.rows), database)) == Collapse(Keys(s.requested, database))
  }

  lemma BothGrow(a: seq<Migration>, b: seq<Migration>, m: Migration, database: string)
    requires Collapse(Keys(a, database)) == Collapse(Keys(b, database))
    ensures Collapse(Keys(a + [m], database)) == Collapse(Keys(b + [m], database))
  {
    KeysAppend(a, m, database);
    KeysAppend(b, m, database);
    if Concerns(m, database) {
      CollapseAppend(Keys(a, database), DedupKey(m));
      CollapseAppend(Keys(b, database), DedupKey(m));
    }
  }

  lemma RepeatCollapses(ms: seq<Migration>, m: Migration, database: string)
    requires Concerns(m, database) ==>
      var all := Collapse(Keys(ms, database)); all != [] && DedupKey(m).Some? && all[|all|-1] == DedupKey(m)
    ensures Collapse(Keys(ms + [m], database)) == Collapse(Keys(ms, database))
  {
    KeysAppend(ms, m, database);
    if Concerns(m, database) {
      CollapseAppend(Keys(ms, database), DedupKey(m));
    }
  }

  /** A request that attaches repeats the last key of every database it concerns. */
  lemma AttachedIsTheLast(rows: seq<Row>, m: Migration, now: int, window: int, database: string)
    requires Attaches(rows, m, now, window).Some? && Concerns(m, database)
    ensures var keys := Keys(Migrations(rows), database); keys != [] && keys[|keys|-1] == DedupKey(m)
  {
    var ms, c := Migrations(rows), Attaches(rows, m, now, window).value;
    KeyIdentifies(m, ms[c]);
    forall j | c < j < |ms| && Concerns(ms[j], database) ensures DedupKey(ms[j]) == DedupKey(ms[c]) {
      assert SameScope(m, rows[j].m);
    }
    LastKey(ms, c, database);
  }

  lemma RequestStaysFaithful(s: State, m: Migration, now: int, window: int, database: string)
    requires Faithful(s)
    ensures var s' := Do(s, Request(m, now, window));
      Collapse(Keys(Migrations(s'.rows), database)) == Collapse(Keys(s'.requested, database))
  {
    var s' := Do(s, Request(m, now, window));
    var ms := Migrations(s.rows);
    assert Collapse(Keys(ms, database)) == Collapse(Keys(s.requested, database));
    if Attaches(s.rows, m, now, window).None? {
      assert Migrations(s'.rows) == ms + [m];
      BothGrow(ms, s.requested, m, database);
    } else {
      if Concerns(m, database) {
        AttachedIsTheLast(s.rows, m, now, window, database);
      }
      RepeatCollapses(s.requested, m, database);
    }
  }

  lemma ProgressStaysFaithful(s: State, i: nat, status: Status)
    requires Faithful(s) && Enabled(s, Progress(i, status))
    ensures Faithful(Do(s, Progress(i, status)))
  {
    assert Migrations(Do(s, Progress(i, status)).rows) == Migrations(s.rows);
  }

  /** For every history and every database: the migrations inserted that concern the
      database, and those requested, are the same once adjacent repeats of one key
      are collapsed. */
  lemma {:induction false} OnlyAdjacentRepeatsCollapse(ss: seq<State>, acts: seq<Action>, i: nat)
    requires IsRun(ss, acts) && i < |ss|
    ensures Faithful(ss[i])
  {
    if i > 0 {
      OnlyAdjacentRepeatsCollapse(ss, acts, i - 1);
      assert ss[i-1+1] == Do(ss[i-1], acts[i-1]);
      match acts[i-1]
      case Request(m, now, window) =>
        forall database: string ensures Collapse(Keys(Migrations(ss[i].rows), database)) == Collapse(Keys(ss[i].requested, database)) {
          RequestStaysFaithful(ss[i-1], m, now, window, database);
        }
      case Progress(k, status) => ProgressStaysFaithful(ss[i-1], k, status);
    } else {
      assert Migrations([]) == [];
    }
  }

  /** Between two rows with one key there is a different one of their scope. */
  predicate Separated(rows: seq<Row>, i: nat, j: nat)
    requires i < j < |rows|
  {
    exists l | i < l < j :: DedupKey(rows[l].m) != DedupKey(rows[j].m) && SameScope(rows[j].m, rows[l].m)
  }

  predicate LiveTwins(x: Row, y: Row) {
    DedupKey(y.m).Some? && DedupKey(x.m) == DedupKey(y.m) && Live(x) && Live(y)
  }

  ghost predicate LiveSeparated(rows: seq<Row>) {
    forall i: nat, j: nat | i < j < |rows| && LiveTwins(rows[i], rows[j]) :: Separated(rows, i, j)
  }

  lemma RequestKeepsSeparated(rows: seq<Row>, m: Migration, now: int, window: int)
    requires LiveSeparated(rows) && Attaches(rows, m, now, window).None?
    ensures LiveSeparated(rows + [Row(m, Queued)])
  {
    var rows' := rows + [Row(m, Queued)];
    forall i: nat, j: nat | i < j < |rows'| && LiveTwins(rows'[i], rows'[j]) ensures Separated(rows', i, j)
    {
      if j < |rows| {
        assert Separated(rows, i, j);
        var l :| i < l < j && DedupKey(rows[l].m) != DedupKey(rows[j].m) && SameScope(rows[j].m, rows[l].m);
        assert rows'[l] == rows[l];
      } else {
        var c := Latest(rows, DedupKey(m).value, now, window);
        assert StandsFor(rows[i], DedupKey(m).value, now, window);
        assert Overtaken(rows, c.value, m);
        var l :| c.value < l < |rows| && DedupKey(rows[l].m) != DedupKey(m) && SameScope(m, rows[l].m);
        assert rows'[l] == rows[l];
      }
    }
  }

  lemma ProgressKeepsSeparated(rows: seq<Row>, k: nat, status: Status)
    requires LiveSeparated(rows) && k < |rows| && (Live(Row(rows[k].m, status)) ==> Live(rows[k]))
    ensures LiveSeparated(rows[k := rows[k].(status := status)])
  {
    var rows' := rows[k := rows[k].(status := status)];
    forall i: nat, j: nat | i < j < |rows'| && LiveTwins(rows'[i], rows'[j]) ensures Separated(rows', i, j)
    {
      assert Separated(rows, i, j);
      var l :| i < l < j && DedupKey(rows[l].m) != DedupKey(rows[j].m) && SameScope(rows[j].m, rows[l].m);
      assert rows'[l].m == rows[l].m;
    }
  }

  /** Two live rows with one key always have a different migration of their scope
      between them. */
  lemma {:induction false} LiveTwinsAreSeparated(ss: seq<State>, acts: seq<Action>, i: nat)
    requires IsRun(ss, acts) && i < |ss|
    ensures LiveSeparated(ss[i].rows)
  {
    if i > 0 {
      LiveTwinsAreSeparated(ss, acts, i - 1);
      assert ss[i-1+1] == Do(ss[i-1], acts[i-1]);
      match acts[i-1]
      case Request(m, now, window) =>
        if Attaches(ss[i-1].rows, m, now, window).None? {
          RequestKeepsSeparated(ss[i-1].rows, m, now, window);
        }
      case Progress(k, status) => ProgressKeepsSeparated(ss[i-1].rows, k, status);
    }
  }
}
