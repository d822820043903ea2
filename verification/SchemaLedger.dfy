/**
 The catalog's own schema migrations: a ledger of applied versions with checksums, and
 the schema their texts built.  A migrator checks the ledger against its list once, and
 then applies the list in order, each pending migration in a transaction of its own
 under the ledger's lock.  Any number of migrators run at once, and each can fail or
 die between any two steps.
 */
module SchemaLedger {
  /** One embedded schema file; its checksum is taken to stand for its text. */
  datatype Migration = Migration(version: nat, text: string)

  /** Strictly by version. */
  predicate Ascending(ms: seq<Migration>) {
    forall i, j | 0 <= i < j < |ms| :: ms[i].version < ms[j].version
  }

  predicate Applied(ms: seq<Migration>, version: nat) {
    exists m | m in ms :: m.version == version
  }

  /** The ledger table: the checksum recorded for each version. */
  function Ledger(ms: seq<Migration>): map<nat, string> {
    if ms == [] then map[] else Ledger(ms[..|ms|-1])[ms[|ms|-1].version := ms[|ms|-1].text]
  }

  lemma {:induction false} LedgerHolds(ms: seq<Migration>, version: nat)
    ensures version in Ledger(ms) <==> Applied(ms, version)
  {
    if ms != [] {
      LedgerHolds(ms[..|ms|-1], version);
      assert ms == ms[..|ms|-1] + [ms[|ms|-1]];
    }
  }

  lemma {:induction false} LedgerAt(ms: seq<Migration>, i: nat)
    requires Ascending(ms) && i < |ms|
    ensures ms[i].version in Ledger(ms) && Ledger(ms)[ms[i].version] == ms[i].text
    decreases |ms|
  {
    if i < |ms| - 1 {
      LedgerAt(ms[..|ms|-1], i);
    }
  }

  // ----------------------------------------------------------- operations

  /** The binary knows every applied version, and none of its pending ones is numbered
      below an applied one. */
  predicate Compatible(applied: seq<Migration>, list: seq<Migration>) {
    && (forall a | a in applied :: Applied(list, a.version))
    && (forall m | m in list && !Applied(applied, m.version) :: forall a | a in applied :: a.version <= m.version)
  }

  /** The first j migrations of both carry the same versions. */
  predicate SameVersions(a: seq<Migration>, b: seq<Migration>, n: nat)
    requires n <= |a| && n <= |b|
  {
    forall j | 0 <= j < n :: a[j].version == b[j].version
  }

  lemma Position(ms: seq<Migration>, version: nat) returns (p: nat)
    requires Applied(ms, version)
    ensures p < |ms| && ms[p].version == version
  {
    var m :| m in ms && m.version == version;
    p :| p < |ms| && ms[p] == m;
  }

  lemma NotBelow(applied: seq<Migration>, list: seq<Migration>, j: nat)
    requires Ascending(applied) && Ascending(list) && (forall a | a in applied :: Applied(list, a.version))
    requires j < |applied| && j <= |list| && SameVersions(applied, list, j)
    ensures j < |list| && list[j].version <= applied[j].version
  {
    assert applied[j] in applied;
    var p := Position(list, applied[j].version);
  }

  lemma NotAbove(applied: seq<Migration>, list: seq<Migration>, j: nat)
    requires Ascending(applied) && Ascending(list) && Compatible(applied, list)
    requires j < |applied| && j < |list| && SameVersions(applied, list, j)
    ensures applied[j].version <= list[j].version
  {
    if Applied(applied, list[j].version) {
      var q := Position(applied, list[j].version);
    } else {
      assert list[j] in list && applied[j] in applied;
    }
  }

  /** A compatible ledger is the versions of the beginning of the list. */
  lemma {:induction false} CompatibleIsPrefix(applied: seq<Migration>, list: seq<Migration>, n: nat)
    requires Ascending(applied) && Ascending(list) && Compatible(applied, list) && n <= |applied|
    ensures n <= |list| && SameVersions(applied, list, n)
  {
    if n > 0 {
      CompatibleIsPrefix(applied, list, n - 1);
      NotBelow(applied, list, n - 1);
      NotAbove(applied, list, n - 1);
    }
  }

  lemma PrefixIsCompatible(applied: seq<Migration>, list: seq<Migration>)
    requires Ascending(list) && |applied| <= |list| && SameVersions(applied, list, |applied|)
    ensures Compatible(applied, list)
  {
    forall a | a in applied ensures Applied(list, a.version) {
      var i :| 0 <= i < |applied| && applied[i] == a;
      assert list[i] in list;
    }
    forall m | m in list ensures Applied(applied, m.version) || forall a | a in applied :: a.version <= m.version {
      var i :| 0 <= i < |list| && list[i] == m;
      if i < |applied| {
        assert applied[i] in applied;
      }
    }
  }

  /** The check as it is coded, over the versions read from the ledger. */
  method CheckCompatible(applied: seq<Migration>, list: seq<Migration>) returns (ok: bool)
    ensures ok <==> Compatible(applied, list)
  {
    var highest, unknown := 0, false;
    for i := 0 to |applied|
      invariant forall j | 0 <= j < i :: applied[j].version <= highest
      invariant highest == 0 || exists j | 0 <= j < i :: applied[j].version == highest
      invariant unknown <==> exists j | 0 <= j < i :: !Applied(list, applied[j].version)
    {
      if applied[i].version > highest {
        highest := applied[i].version;
      }
      if !Applied(list, applied[i].version) {
        unknown := true;
      }
    }
    if unknown {
      return false;
    }
    for i := 0 to |list|
      invariant forall j | 0 <= j < i :: list[j].version < highest ==> Applied(applied, list[j].version)
    {
      if list[i].version < highest && !Applied(applied, list[i].version) {
        assert list[i] in list;
        return false;
      }
    }
    return true;
  }

  /** Two files with one number are refused; the files come sorted by number. */
  method Numbered(files: seq<Migration>) returns (ok: bool)
    requires forall i, j | 0 <= i < j < |files| :: files[i].version <= files[j].version
    ensures ok <==> Ascending(files)
  {
    if |files| == 0 {
      return true;
    }
    for i := 1 to |files|
      invariant forall j | 0 <= j < i - 1 :: files[j].version < files[j+1].version
    {
      if files[i].version == files[i-1].version {
        return false;
      }
    }
    forall i, j | 0 <= i < j < |files| ensures files[i].version < files[j].version {
      assert files[j-1].version < files[j-1+1].version;
    }
    return true;
  }

  /** A migrator that has come to place i of its list, everything before it matching:
      the version is in the ledger exactly when the ledger is longer than that, with the
      text recorded there; otherwise running it continues both in step. */
  lemma NextAt(applied: seq<Migration>, list: seq<Migration>, i: nat)
    requires Ascending(applied) && Ascending(list) && i < |list| && i <= |applied| && applied[..i] == list[..i]
    requires i < |applied| ==> applied[i].version == list[i].version
    ensures list[i].version in Ledger(applied) <==> i < |applied|
    ensures i < |applied| ==> Ledger(applied)[list[i].version] == applied[i].text
    ensures i < |applied| && applied[i].text == list[i].text ==> applied[..i+1] == list[..i+1]
    ensures i == |applied| ==> applied + [list[i]] == list[..i+1] && Ascending(applied + [list[i]])
  {
    if i < |applied| {
      Matches(applied, list, i);
    } else {
      Continues(list, i);
      assert applied[..i] == applied;
    }
  }

  lemma Matches(applied: seq<Migration>, list: seq<Migration>, i: nat)
    requires Ascending(applied) && i < |list| && i < |applied| && applied[..i] == list[..i] && applied[i].version == list[i].version
    ensures list[i].version in Ledger(applied) && Ledger(applied)[list[i].version] == applied[i].text
    ensures applied[i].text == list[i].text ==> applied[..i+1] == list[..i+1]
  {
    LedgerAt(applied, i);
    assert applied[..i+1] == applied[..i] + [applied[i]];
    assert list[..i+1] == list[..i] + [list[i]];
  }

  lemma Continues(list: seq<Migration>, i: nat)
    requires Ascending(list) && i < |list|
    ensures list[i].version !in Ledger(list[..i]) && list[..i] + [list[i]] == list[..i+1] && Ascending(list[..i+1])
  {
    LedgerHolds(list[..i], list[i].version);
  }

  /** A ledger of the list's versions that matches it up to place i. */
  predicate InStep(applied: seq<Migration>, list: seq<Migration>, i: nat) {
    && Ascending(applied) && i <= |applied| <= |list|
    && SameVersions(applied, list, |applied|) && applied[..i] == list[..i]
  }

  lemma StaysInStep(applied: seq<Migration>, list: seq<Migration>, i: nat)
    requires Ascending(list) && i < |list| && InStep(applied, list, i)
    ensures list[i].version in Ledger(applied) <==> i < |applied|
    ensures i < |applied| && Ledger(applied)[list[i].version] == list[i].text ==> InStep(applied, list, i + 1)
    ensures i < |applied| && Ledger(applied)[list[i].version] != list[i].text ==> !(applied <= list)
    ensures i == |applied| ==> applied <= list && applied + [list[i]] <= list && InStep(applied + [list[i]], list, i + 1)
  {
    NextAt(applied, list, i);
    if i == |applied| {
      assert applied == list[..i];
    }
  }

  datatype Outcome = Committed | ReplyLost | RolledBack

  datatype Answer = Incompatible | Mismatch | Failed | UpToDate

  /** One migration of the list: verified if the ledger has it, run if it does not. */
  method Apply(applied: seq<Migration>, list: seq<Migration>, i: nat, o: Outcome) returns (r: Answer, applied': seq<Migration>)
    requires Ascending(list) && i < |list| && InStep(applied, list, i)
    ensures r == UpToDate ==> InStep(applied', list, i + 1) && applied <= applied' && (i + 1 < |applied'| ==> applied' == applied)
    ensures r == Mismatch ==> applied' == applied && i < |applied| && !(applied <= list)
    ensures r == Failed ==> applied <= applied' <= list
    ensures r != Incompatible && Ascending(applied')
  {
    StaysInStep(applied, list, i);
    applied' := applied;
    if list[i].version in Ledger(applied) {
      return if Ledger(applied)[list[i].version] == list[i].text then UpToDate else Mismatch, applied;
    }
    if o != RolledBack {
      applied' := applied + [list[i]];
    }
    return if o == Committed then UpToDate else Failed, applied';
  }

  class Catalog {
    var applied: seq<Migration>

    constructor ()
      ensures applied == []
    {
      applied := [];
    }

    /** The catalog of a migrator that runs alone: what was applied stays, what is added
        continues it along the list, and success means the whole list. */
    method Migrate(list: seq<Migration>, outcome: nat -> Outcome) returns (r: Answer)
      requires Ascending(applied) && Ascending(list)
      modifies this
      ensures old(applied) <= applied && Ascending(applied)
      ensures r == Incompatible <==> !Compatible(old(applied), list)
      ensures r == Incompatible || r == Mismatch ==> applied == old(applied)
      ensures r == Mismatch ==> !(applied <= list)
      ensures r == Failed || r == UpToDate ==> applied <= list
      ensures r == UpToDate ==> applied == list
    {
      var compatible := CheckCompatible(applied, list);
      if !compatible {
        return Incompatible;
      }
      CompatibleIsPrefix(applied, list, |applied|);
      ghost var was := applied;
      for i := 0 to |list|
        invariant InStep(applied, list, i) && was <= applied
        invariant i < |applied| ==> applied == was
      {
        var next;
        next, applied := Apply(applied, list, i, outcome(i));
        if next != UpToDate {
          return next;
        }
      }
      return UpToDate;
    }
  }

  // ------------------------------------------------------------ histories

  type MigratorId = nat

  /** A migrator with its list, before the check or at a place of the list. */
  datatype Migrator = Unchecked(list: seq<Migration>) | Applying(list: seq<Migration>, next: nat)

  /** `applied` is every migration whose transaction committed, in that order: the
      schema is what running those texts one after the other makes. */
  datatype State = State(applied: seq<Migration>, migrators: map<MigratorId, Migrator>)

  datatype Action =
    | Begin(id: MigratorId, list: seq<Migration>)
    | Check(id: MigratorId)
    | Next(id: MigratorId, outcome: Outcome)
    | End(id: MigratorId)

  predicate Enabled(s: State, a: Action) {
    match a
    case Begin(id, list) => id !in s.migrators && Ascending(list)
    case Check(id) => id in s.migrators && s.migrators[id].Unchecked?
    case Next(id, _) => id in s.migrators && s.migrators[id].Applying? && s.migrators[id].next < |s.migrators[id].list|
    case End(id) => id in s.migrators
  }

  function Moved(s: State, id: MigratorId, m: Migrator): State {
    s.(migrators := s.migrators[id := m])
  }

  function Ended(s: State, id: MigratorId): State {
    s.(migrators := s.migrators - {id})
  }

  function Do(s: State, a: Action): State
    requires Enabled(s, a)
  {
    match a
    case Begin(id, list) => Moved(s, id, Unchecked(list))
    case Check(id) =>
      if Compatible(s.applied, s.migrators[id].list) then Moved(s, id, Applying(s.migrators[id].list, 0)) else Ended(s, id)
    case Next(id, outcome) =>
      var x := s.migrators[id];
      var m, ledger := x.list[x.next], Ledger(s.applied);
      if m.version in ledger then
        if ledger[m.version] == m.text then Moved(s, id, x.(next := x.next + 1)) else Ended(s, id)
      else if outcome == Committed then Moved(s.(applied := s.applied + [m]), id, x.(next := x.next + 1))
      else Ended(if outcome == ReplyLost then s.(applied := s.applied + [m]) else s, id)
    case End(id) => Ended(s, id)
  }

  predicate StepAt(ss: seq<State>, acts: seq<Action>, i: nat)
    requires |ss| == |acts| + 1 && i < |acts|
  {
    Enabled(ss[i], acts[i]) && ss[i+1] == Do(ss[i], acts[i])
  }

  ghost predicate IsRun(ss: seq<State>, acts: seq<Action>) {
    && |ss| == |acts| + 1 && ss[0] == State([], map[])
    && forall i: nat | i < |acts| :: StepAt(ss, acts, i)
  }

  function Min(a: nat, b: nat): nat {
    if a < b then a else b
  }

  /** Two lists number their migrations alike as far as both go. */
  predicate Comparable(a: seq<Migration>, b: seq<Migration>) {
    SameVersions(a, b, Min(|a|, |b|))
  }

  /** The lists of the migrators running now are comparable: the same binary, or older
      and newer ones of one line. */
  predicate OneLine(s: State) {
    forall p, q | p in s.migrators && q in s.migrators :: Comparable(s.migrators[p].list, s.migrators[q].list)
  }

  ghost predicate MigratorOk(applied: seq<Migration>, x: Migrator) {
    && Ascending(x.list)
    && (x.Applying? ==> x.next <= |x.list| && x.next <= |applied| && applied[..x.next] == x.list[..x.next] && Comparable(applied, x.list))
  }

  ghost predicate Inv(s: State) {
    Ascending(s.applied) && forall id | id in s.migrators :: MigratorOk(s.applied, s.migrators[id])
  }

  /** One migrator's commit keeps another's place. */
  lemma CommitKeepsOthers(applied: seq<Migration>, list: seq<Migration>, x: Migrator)
    requires MigratorOk(applied, x) && |applied| < |list| && Comparable(x.list, list)
    ensures MigratorOk(applied + [list[|applied|]], x)
  {
    var applied' := applied + [list[|applied|]];
    if x.Applying? {
      assert applied'[..x.next] == applied[..x.next];
      forall j | 0 <= j < Min(|applied'|, |x.list|) ensures applied'[j].version == x.list[j].version {
        if j < |applied| {
          assert applied'[j] == applied[j];
        }
      }
    }
  }

  /** The migrator's own place, and what its step makes of the ledger. */
  lemma NextApplies(s: State, id: MigratorId, outcome: Outcome)
    requires Inv(s) && Enabled(s, Next(id, outcome))
    ensures var x, s' := s.migrators[id], Do(s, Next(id, outcome));
      && Ascending(s'.applied)
      && s'.applied == (if x.next == |s.applied| && outcome != RolledBack then s.applied + [x.list[|s.applied|]] else s.applied)
      && (id in s'.migrators ==> MigratorOk(s'.applied, s'.migrators[id]))
      && (forall q | q != id :: q in s'.migrators <==> q in s.migrators)
      && (forall q | q != id && q in s'.migrators :: s'.migrators[q] == s.migrators[q])
  {
    var x, s' := s.migrators[id], Do(s, Next(id, outcome));
    assert MigratorOk(s.applied, x);
    NextAt(s.applied, x.list, x.next);
    if x.next == |s.applied| && outcome != RolledBack {
      CommitKeepsOthers(s.applied, x.list, x);
    }
  }

  lemma NextKeepsInv(s: State, id: MigratorId, outcome: Outcome)
    requires Inv(s) && OneLine(s) && Enabled(s, Next(id, outcome))
    ensures Inv(Do(s, Next(id, outcome)))
  {
    var x, s' := s.migrators[id], Do(s, Next(id, outcome));
    NextApplies(s, id, outcome);
    forall q | q in s'.migrators ensures MigratorOk(s'.applied, s'.migrators[q]) {
      if x.next == |s.applied| && outcome != RolledBack {
        CommitKeepsOthers(s.applied, x.list, s.migrators[q]);
      }
    }
  }

  lemma StepKeepsInv(s: State, a: Action)
    requires Inv(s) && OneLine(s) && Enabled(s, a)
    ensures Inv(Do(s, a))
  {
    match a
    case Next(id, outcome) => NextKeepsInv(s, id, outcome);
    case Check(id) =>
      if Compatible(s.applied, s.migrators[id].list) {
        CompatibleIsPrefix(s.applied, s.migrators[id].list, |s.applied|);
      }
    case _ =>
  }

  lemma {:induction false} RunKeepsInv(ss: seq<State>, acts: seq<Action>, i: nat)
    requires IsRun(ss, acts) && i < |ss| && forall j | 0 <= j < i :: OneLine(ss[j])
    ensures Inv(ss[i])
  {
    if i > 0 {
      RunKeepsInv(ss, acts, i - 1);
      assert StepAt(ss, acts, i - 1);
      StepKeepsInv(ss[i-1], acts[i-1]);
    }
  }

  /** Whatever fails, and whichever migrators of one line run at once, the migrations
      were applied in version order, and each migrator past its check has the ledger
      numbered as its list is, and equal to it up to where it has come. */
  lemma AppliedInVersionOrder(ss: seq<State>, acts: seq<Action>, i: nat, id: MigratorId)
    requires IsRun(ss, acts) && i < |ss| && forall j | 0 <= j < i :: OneLine(ss[j])
    ensures Ascending(ss[i].applied)
    ensures id in ss[i].migrators && ss[i].migrators[id].Applying? ==>
      var x := ss[i].migrators[id];
      Comparable(ss[i].applied, x.list) && x.list[..Min(x.next, |x.list|)] <= ss[i].applied
  {
    RunKeepsInv(ss, acts, i);
    if id in ss[i].migrators && ss[i].migrators[id].Applying? {
      assert MigratorOk(ss[i].applied, ss[i].migrators[id]);
    }
  }

  /** A migration is applied exactly by a migrator that comes to it, finds no migration of
      its version applied, and commits, whether or not the answer reaches it; only one that
      heard of it goes on, and one that finds another text recorded goes no further. */
  lemma AppliedByItsCommit(s: State, id: MigratorId, o: Outcome)
    requires Enabled(s, Next(id, o))
    ensures var x, s' := s.migrators[id], Do(s, Next(id, o));
      var m := x.list[x.next];
      && s'.applied == (if Applied(s.applied, m.version) || o == RolledBack then s.applied else s.applied + [m])
      && (id in s'.migrators ==> s'.migrators[id] == x.(next := x.next + 1))
      && (!Applied(s.applied, m.version) ==> (id in s'.migrators <==> o == Committed))
      && (Ascending(s.applied) && m in s.applied ==> id in s'.migrators)
      && (Ascending(s.applied) && Applied(s.applied, m.version) && m !in s.applied ==> id !in s'.migrators)
  {
    var x := s.migrators[id];
    var m := x.list[x.next];
    LedgerHolds(s.applied, m.version);
    if Ascending(s.applied) && Applied(s.applied, m.version) {
      var p := Position(s.applied, m.version);
      LedgerAt(s.applied, p);
      if m in s.applied {
        var q :| 0 <= q < |s.applied| && s.applied[q] == m;
        LedgerAt(s.applied, q);
      } else {
        assert s.applied[p] in s.applied && s.applied[p].text != m.text;
      }
    }
  }

  ghost predicate OfLine(s: State, line: seq<Migration>) {
    Inv(s) && s.applied <= line && forall id | id in s.migrators :: s.migrators[id].list <= line
  }

  lemma StepKeepsLine(s: State, a: Action, line: seq<Migration>)
    requires OfLine(s, line) && Enabled(s, a) && (a.Begin? ==> a.list <= line)
    ensures OfLine(Do(s, a), line)
  {
    LineIsOne(s, line);
    StepKeepsInv(s, a);
    forall id | id in Do(s, a).migrators ensures Do(s, a).migrators[id].list <= line {
      ListStays(s, a, id);
    }
    if a.Next? {
      NextKeepsLine(s, a.id, a.outcome, line);
    }
  }

  lemma LineIsOne(s: State, line: seq<Migration>)
    requires forall id | id in s.migrators :: s.migrators[id].list <= line
    ensures OneLine(s)
  {
  }

  lemma ListStays(s: State, a: Action, id: MigratorId)
    requires Enabled(s, a) && id in Do(s, a).migrators
    ensures Do(s, a).migrators[id].list == if a.Begin? && a.id == id then a.list else if id in s.migrators then s.migrators[id].list else []
    ensures id in s.migrators || (a.Begin? && a.id == id)
  {
  }

  lemma NextKeepsLine(s: State, id: MigratorId, outcome: Outcome, line: seq<Migration>)
    requires Inv(s) && s.applied <= line && id in s.migrators && s.migrators[id].list <= line && Enabled(s, Next(id, outcome))
    ensures Do(s, Next(id, outcome)).applied <= line
  {
    var x := s.migrators[id];
    assert MigratorOk(s.applied, x);
    NextAt(s.applied, x.list, x.next);
    assert x.list[..x.next+1] <= line;
  }

  /** When every binary's list is the beginning of one line of releases, the ledger and
      the schema are at all times the beginning of that line. */
  lemma {:induction false} AppliedIsAPrefix(ss: seq<State>, acts: seq<Action>, i: nat, line: seq<Migration>)
    requires IsRun(ss, acts) && i < |ss| && forall j | 0 <= j < i :: acts[j].Begin? ==> acts[j].list <= line
    ensures OfLine(ss[i], line) && ss[i].applied <= line
  {
    if i > 0 {
      AppliedIsAPrefix(ss, acts, i - 1, line);
      assert StepAt(ss, acts, i - 1);
      StepKeepsLine(ss[i-1], acts[i-1], line);
    }
  }

  lemma LedgerDetermines(a: seq<Migration>, b: seq<Migration>, n: nat)
    requires Ascending(a) && Ascending(b) && Ledger(a) == Ledger(b) && n <= |a|
    ensures n <= |b| && a[..n] == b[..n]
  {
    forall m | m in a ensures Applied(b, m.version) {
      LedgerHolds(a, m.version);
      LedgerHolds(b, m.version);
    }
    forall m | m in b ensures Applied(a, m.version) {
      LedgerHolds(a, m.version);
      LedgerHolds(b, m.version);
    }
    assert Compatible(a, b);
    CompatibleIsPrefix(a, b, n);
    forall i | 0 <= i < n ensures a[i] == b[i] {
      LedgerAt(a, i);
      LedgerAt(b, i);
    }
  }

  /** Two catalogs with equal ledgers, whatever their histories, ran the same texts in
      the same order, and so have the same schema. */
  lemma EqualLedgersEqualSchemas(ss: seq<State>, as_: seq<Action>, i: nat, tt: seq<State>, at: seq<Action>, j: nat)
    requires IsRun(ss, as_) && i < |ss| && forall k | 0 <= k < i :: OneLine(ss[k])
    requires IsRun(tt, at) && j < |tt| && forall k | 0 <= k < j :: OneLine(tt[k])
    requires Ledger(ss[i].applied) == Ledger(tt[j].applied)
    ensures ss[i].applied == tt[j].applied
  {
    var a, b := ss[i].applied, tt[j].applied;
    RunKeepsInv(ss, as_, i);
    RunKeepsInv(tt, at, j);
    LedgerDetermines(a, b, |a|);
    LedgerDetermines(b, a, |b|);
    assert a == a[..|a|] && b == b[..|b|];
  }

  // ------------------------------------------------------ two lines at once

  lemma StepTo(ss: seq<State>, acts: seq<Action>, a: Action) returns (ss': seq<State>, acts': seq<Action>)
    requires IsRun(ss, acts) && Enabled(ss[|acts|], a)
    ensures IsRun(ss', acts') && acts <= acts' && ss'[|acts'|] == Do(ss[|acts|], a)
  {
    ss', acts' := ss + [Do(ss[|acts|], a)], acts + [a];
    forall i: nat | i < |acts'| ensures StepAt(ss', acts', i) {
      if i < |acts| { assert StepAt(ss, acts, i); }
    }
  }

  /** A migrator at the end of a ledger that is its list so far applies the list up to n. */
  lemma {:induction false} AppliesUpTo(ss: seq<State>, acts: seq<Action>, id: MigratorId, list: seq<Migration>, i: nat, n: nat)
    returns (ss': seq<State>, acts': seq<Action>)
    requires IsRun(ss, acts) && Ascending(list) && i <= n <= |list|
    requires var s := ss[|acts|]; s.applied == list[..i] && id in s.migrators && s.migrators[id] == Applying(list, i)
    ensures IsRun(ss', acts') && acts <= acts'
    ensures ss'[|acts'|] == Moved(State(list[..n], ss[|acts|].migrators), id, Applying(list, n))
    decreases n - i
  {
    var s := ss[|acts|];
    if i == n {
      ss', acts' := ss, acts;
      assert s.migrators[id := s.migrators[id]] == s.migrators;
    } else {
      NextAt(s.applied, list, i);
      ss', acts' := StepTo(ss, acts, Next(id, Committed));
      ss', acts' := AppliesUpTo(ss', acts', id, list, i + 1, n);
      assert s.migrators[id := Applying(list, i + 1)][id := Applying(list, n)] == s.migrators[id := Applying(list, n)];
    }
  }

  /** A migrator behind a ledger that begins as its list does comes up to n, running
      nothing. */
  lemma {:induction false} SkipsUpTo(ss: seq<State>, acts: seq<Action>, id: MigratorId, list: seq<Migration>, i: nat, n: nat)
    returns (ss': seq<State>, acts': seq<Action>)
    requires IsRun(ss, acts) && Ascending(list) && i <= n <= |list|
    requires var s := ss[|acts|]; Ascending(s.applied) && list[..n] <= s.applied && id in s.migrators && s.migrators[id] == Applying(list, i)
    ensures IsRun(ss', acts') && acts <= acts'
    ensures ss'[|acts'|] == Moved(ss[|acts|], id, Applying(list, n))
    decreases n - i
  {
    var s := ss[|acts|];
    if i == n {
      ss', acts' := ss, acts;
      assert s.migrators[id := s.migrators[id]] == s.migrators;
    } else {
      assert s.applied[i] == list[..n][i] == list[i];
      LedgerAt(s.applied, i);
      ss', acts' := StepTo(ss, acts, Next(id, Committed));
      ss', acts' := SkipsUpTo(ss', acts', id, list, i + 1, n);
      assert s.migrators[id := Applying(list, i + 1)][id := Applying(list, n)] == s.migrators[id := Applying(list, n)];
    }
  }

  /** Wherever its migrators were interrupted, a binary of the line that knows everything
      applied so far can bring the catalog up to date with its own list. */
  lemma CanBeBroughtUpToDate(ss: seq<State>, acts: seq<Action>, id: MigratorId, list: seq<Migration>, line: seq<Migration>)
    returns (ss': seq<State>, acts': seq<Action>)
    requires IsRun(ss, acts) && forall j | 0 <= j < |acts| :: acts[j].Begin? ==> acts[j].list <= line
    requires Ascending(list) && list <= line && |ss[|acts|].applied| <= |list| && id !in ss[|acts|].migrators
    ensures IsRun(ss', acts') && acts <= acts' && ss'[|acts'|].applied == list && ss'[|acts'|].migrators.Keys == ss[|acts|].migrators.Keys
  {
    var s := ss[|acts|];
    AppliedIsAPrefix(ss, acts, |acts|, line);
    var n := |s.applied|;
    assert s.applied == list[..n] && list[..|list|] == list;
    PrefixIsCompatible(s.applied, list);
    ss', acts' := StepTo(ss, acts, Begin(id, list));
    ss', acts' := StepTo(ss', acts', Check(id));
    ss', acts' := SkipsUpTo(ss', acts', id, list, 0, n);
    ss', acts' := AppliesUpTo(ss', acts', id, list, n, |list|);
    ss', acts' := StepTo(ss', acts', End(id));
  }

  lemma TwoChecked(a: seq<Migration>, b: seq<Migration>) returns (ss: seq<State>, acts: seq<Action>)
    requires Ascending(a) && Ascending(b)
    ensures IsRun(ss, acts) && ss[|acts|] == State([], map[0 := Applying(a, 0), 1 := Applying(b, 0)])
  {
    ss, acts := [State([], map[])], [];
    ss, acts := StepTo(ss, acts, Begin(0, a));
    ss, acts := StepTo(ss, acts, Begin(1, b));
    ss, acts := StepTo(ss, acts, Check(0));
    ss, acts := StepTo(ss, acts, Check(1));
  }

  /** Two migrators whose lists part at place k with different numbers, both past their
      check: the one with the lower number runs it after the higher one, and the ledger
      is out of order. */
  lemma TwoLinesRunOutOfOrder(a: seq<Migration>, b: seq<Migration>, k: nat) returns (ss: seq<State>, acts: seq<Action>)
    requires Ascending(a) && Ascending(b) && k < |a| && k < |b| && a[..k] == b[..k] && b[k].version < a[k].version
    ensures IsRun(ss, acts) && ss[|acts|].applied == a[..k+1] + [b[k]] && !Ascending(ss[|acts|].applied)
  {
    ss, acts := TwoChecked(a, b);
    assert a[..0] == [];
    ss, acts := AppliesUpTo(ss, acts, 0, a, 0, k + 1);
    assert b[..k] <= a[..k+1];
    ss, acts := SkipsUpTo(ss, acts, 1, b, 0, k);
    LedgerHolds(a[..k+1], b[k].version);
    forall m | m in a[..k+1] ensures m.version != b[k].version {
      var j :| 0 <= j < k + 1 && a[..k+1][j] == m;
      assert j < k ==> a[j] == a[..k][j] == b[..k][j] == b[j];
    }
    ss, acts := StepTo(ss, acts, Next(1, Committed));
    var done := ss[|acts|].applied;
    assert done[k] == a[k] && done[k+1] == b[k];
  }
}
