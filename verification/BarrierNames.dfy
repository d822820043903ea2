/**
 The names of barriers: each is reserved by one INSERT under a unique constraint
 before any group is touched, and stays claimed whatever becomes of the attempt.
 Runs may overlap, fail anywhere and lose replies; the lock is not relied on.
 */
module BarrierNames {

  type Group = string
  type RunId = nat

  const PREFIX := "pgshard-"

  /** The WAL restore point name of a barrier, derived from its name alone. */
  function RestorePointName(barrier: string): string {
    PREFIX + barrier
  }

  predicate LabelChar(c: char) {
    'a' <= c <= 'z' || '0' <= c <= '9' || c == '-'
  }

  /** A DNS-style label of 1 to 63 characters. */
  predicate ValidName(name: string) {
    && 1 <= |name| <= 63
    && (forall i | 0 <= i < |name| :: LabelChar(name[i]))
    && name[0] != '-' && name[|name|-1] != '-'
  }

  datatype Stage = Checking | Reserving | Listing | Pointing | Recording

  datatype Attempt = Attempt(name: string, stage: Stage, left: set<Group>)

  /** `reserved` maps a claimed name to the run that inserted its row, `certified`
      to the run that certified it; `invoked` counts the calls that created a
      restore point of a WAL name on a group. */
  datatype State = State(attempts: map<RunId, Attempt>, past: set<RunId>,
                         reserved: map<string, RunId>, certified: map<string, RunId>,
                         invoked: map<(Group, string), nat>)

  datatype Action =
    | Start(r: RunId, name: string)
    | CheckExists(r: RunId)
    | Reserve(r: RunId, replied: bool)
    | List(r: RunId, groups: set<Group>)
    | CreatePoint(r: RunId, g: Group, replied: bool)
    | DonePointing(r: RunId)
    | Record(r: RunId, replied: bool)
    | End(r: RunId)

  predicate At(s: State, r: RunId, stage: Stage) {
    r in s.attempts && s.attempts[r].stage == stage
  }

  predicate Enabled(s: State, a: Action) {
    match a
    case Start(r, name) => r !in s.past && ValidName(name)
    case CheckExists(r) => At(s, r, Checking)
    case Reserve(r, replied) => At(s, r, Reserving)
    case List(r, gs) => At(s, r, Listing)
    case CreatePoint(r, g, replied) => At(s, r, Pointing) && g in s.attempts[r].left
    case DonePointing(r) => At(s, r, Pointing) && s.attempts[r].left == {}
    case Record(r, replied) => At(s, r, Recording)
    case End(r) => r in s.attempts
  }

  function Go(s: State, r: RunId, stage: Stage): State
    requires r in s.attempts
  {
    s.(attempts := s.attempts[r := s.attempts[r].(stage := stage)])
  }

  /** The attempt returns; its name stays as it is. */
  function Stop(s: State, r: RunId): State {
    s.(attempts := s.attempts - {r})
  }

  function Count(invoked: map<(Group, string), nat>, g: Group, wal: string): nat {
    if (g, wal) in invoked then invoked[(g, wal)] else 0
  }

  function Do(s: State, a: Action): State
    requires Enabled(s, a)
  {
    match a
    case Start(r, name) =>
      s.(attempts := s.attempts[r := Attempt(name, Checking, {})], past := s.past + {r})
    case CheckExists(r) =>
      if s.attempts[r].name in s.reserved then Stop(s, r) else Go(s, r, Reserving)
    case Reserve(r, replied) =>
      // The unique name constraint refuses a second row.
      var name := s.attempts[r].name;
      if name in s.reserved then Stop(s, r)
      else
        var s' := s.(reserved := s.reserved[name := r]);
        if replied then Go(s', r, Listing) else Stop(s', r)
    case List(r, gs) => s.(attempts := s.attempts[r := s.attempts[r].(stage := Pointing, left := gs)])
    case CreatePoint(r, g, replied) =>
      var wal := RestorePointName(s.attempts[r].name);
      var s' := s.(invoked := s.invoked[(g, wal) := Count(s.invoked, g, wal) + 1]);
      if replied then s'.(attempts := s.attempts[r := s.attempts[r].(left := s.attempts[r].left - {g})])
      else Stop(s', r)
    case DonePointing(r) => Go(s, r, Recording)
    case Record(r, replied) =>
      // UPDATE ... WHERE name = $1 AND NOT certified
      var name := s.attempts[r].name;
      Stop(if name in s.reserved && name !in s.certified then s.(certified := s.certified[name := r]) else s, r)
    case End(r) => Stop(s, r)
  }

  predicate Init(s: State) {
    s == State(map[], {}, map[], map[], map[])
  }

  predicate StepAt(ss: seq<State>, acts: seq<Action>, i: nat)
    requires |ss| == |acts| + 1 && i < |acts|
  {
    Enabled(ss[i], acts[i]) && ss[i+1] == Do(ss[i], acts[i])
  }

  ghost predicate IsRun(ss: seq<State>, acts: seq<Action>) {
    && |ss| == |acts| + 1 && Init(ss[0])
    && forall i: nat | i < |acts| :: StepAt(ss, acts, i)
  }

  lemma WalNamesDiffer(a: string, b: string)
    requires RestorePointName(a) == RestorePointName(b)
    ensures a == b
  {
    assert a == RestorePointName(a)[|PREFIX|..];
    assert b == RestorePointName(b)[|PREFIX|..];
  }

  /** An attempt past its reservation is the one that holds the name, and has no
      restore point yet on the groups it has still to visit. */
  ghost predicate AttemptOk(s: State, r: RunId)
    requires r in s.attempts
  {
    var x := s.attempts[r];
    && r in s.past
    && (x.stage == Listing || x.stage == Pointing || x.stage == Recording ==> x.name in s.reserved && s.reserved[x.name] == r)
    && (x.stage == Listing ==> forall g :: Count(s.invoked, g, RestorePointName(x.name)) == 0)
    && (x.stage == Pointing ==> forall g | g in x.left :: Count(s.invoked, g, RestorePointName(x.name)) == 0)
  }

  ghost predicate Inv(s: State) {
    && (forall r | r in s.attempts :: AttemptOk(s, r))
    && (forall name | name in s.reserved :: s.reserved[name] in s.past)
    && (forall name | name in s.certified :: name in s.reserved && s.certified[name] == s.reserved[name])
    && (forall g, wal :: Count(s.invoked, g, wal) <= 1)
    && (forall g, name | name !in s.reserved :: Count(s.invoked, g, RestorePointName(name)) == 0)
  }

  predicate Creates(s: State, a: Action, g: Group, wal: string) {
    a.CreatePoint? && Enabled(s, a) && a.g == g && wal == RestorePointName(s.attempts[a.r].name)
  }

  lemma Counted(s: State, a: Action, g: Group, wal: string)
    requires Enabled(s, a)
    ensures Count(Do(s, a).invoked, g, wal) == Count(s.invoked, g, wal) + if Creates(s, a, g, wal) then 1 else 0
  {
  }

  /** Another attempt's restore points carry another WAL name. */
  lemma AttemptPointStep(s: State, a: Action, r: RunId)
    requires Inv(s) && Enabled(s, a) && a.CreatePoint? && r in Do(s, a).attempts
    ensures AttemptOk(Do(s, a), r)
  {
    var x := s.attempts[r];
    assert AttemptOk(s, r) && AttemptOk(s, a.r);
    forall g ensures Count(Do(s, a).invoked, g, RestorePointName(x.name)) ==
                     Count(s.invoked, g, RestorePointName(x.name)) + if Creates(s, a, g, RestorePointName(x.name)) then 1 else 0
    {
      Counted(s, a, g, RestorePointName(x.name));
    }
    if RestorePointName(x.name) == RestorePointName(s.attempts[a.r].name) { WalNamesDiffer(x.name, s.attempts[a.r].name); }
  }

  lemma AttemptReserveStep(s: State, a: Action, r: RunId)
    requires Inv(s) && Enabled(s, a) && a.Reserve? && r in Do(s, a).attempts
    ensures AttemptOk(Do(s, a), r)
  {
    assert AttemptOk(s, r);
    assert Do(s, a).invoked == s.invoked;
  }

  lemma AttemptStep(s: State, a: Action, r: RunId)
    requires Inv(s) && Enabled(s, a) && r in Do(s, a).attempts
    ensures AttemptOk(Do(s, a), r)
  {
    if a.CreatePoint? {
      AttemptPointStep(s, a, r);
    } else if a.Reserve? {
      AttemptReserveStep(s, a, r);
    } else {
      if r in s.attempts { assert AttemptOk(s, r); }
      assert Do(s, a).invoked == s.invoked;
    }
  }

  lemma InvStep(s: State, a: Action)
    requires Inv(s) && Enabled(s, a)
    ensures Inv(Do(s, a))
  {
    var s' := Do(s, a);
    forall r | r in s'.attempts ensures AttemptOk(s', r) { AttemptStep(s, a, r); }
    if !a.Start? { assert AttemptOk(s, a.r); }
    forall g, wal ensures Count(s'.invoked, g, wal) <= 1 { Counted(s, a, g, wal); }
    forall g, name | name !in s'.reserved ensures Count(s'.invoked, g, RestorePointName(name)) == 0 {
      Counted(s, a, g, RestorePointName(name));
      if Creates(s, a, g, RestorePointName(name)) { WalNamesDiffer(name, s.attempts[a.r].name); }
    }
  }

  lemma {:induction false} RunKeepsInv(ss: seq<State>, acts: seq<Action>, i: nat)
    requires IsRun(ss, acts) && i < |ss|
    ensures Inv(ss[i])
  {
    if i > 0 {
      RunKeepsInv(ss, acts, i - 1);
      assert StepAt(ss, acts, i - 1);
      InvStep(ss[i-1], acts[i-1]);
    }
  }

  /** Over any history of overlapping, failing and repeated barriers, a restore
      point of one WAL name is created at most once on any group. */
  lemma PointCreatedOnce(ss: seq<State>, acts: seq<Action>, i: nat, j: nat)
    requires IsRun(ss, acts) && i < j < |acts| && StepAt(ss, acts, i) && StepAt(ss, acts, j)
    requires acts[i].CreatePoint? && acts[j].CreatePoint? && acts[i].g == acts[j].g
    ensures RestorePointName(ss[i].attempts[acts[i].r].name) != RestorePointName(ss[j].attempts[acts[j].r].name)
  {
    var g, wal := acts[i].g, RestorePointName(ss[i].attempts[acts[i].r].name);
    RunKeepsInv(ss, acts, j + 1);
    Counted(ss[i], acts[i], g, wal);
    Counted(ss[j], acts[j], g, wal);
    CountGrows(ss, acts, i + 1, j, g, wal);
    assert Count(ss[j+1].invoked, g, wal) <= 1;
  }

  lemma {:induction false} CountGrows(ss: seq<State>, acts: seq<Action>, i: nat, j: nat, g: Group, wal: string)
    requires IsRun(ss, acts) && i <= j < |ss|
    ensures Count(ss[i].invoked, g, wal) <= Count(ss[j].invoked, g, wal)
  {
    if i < j {
      CountGrows(ss, acts, i, j - 1, g, wal);
      assert StepAt(ss, acts, j - 1);
      Counted(ss[j-1], acts[j-1], g, wal);
    }
  }

  /** A name once reserved keeps its run for good, and only that run certifies it. */
  lemma {:induction false} ReservedForGood(ss: seq<State>, acts: seq<Action>, i: nat, j: nat, name: string)
    requires IsRun(ss, acts) && i <= j < |ss| && name in ss[i].reserved
    ensures name in ss[j].reserved && ss[j].reserved[name] == ss[i].reserved[name]
    ensures name in ss[j].certified ==> ss[j].certified[name] == ss[i].reserved[name]
  {
    RunKeepsInv(ss, acts, j);
    if i < j {
      ReservedForGood(ss, acts, i, j - 1, name);
      assert StepAt(ss, acts, j - 1);
    }
  }

  /** A name somebody holds is refused before anything is touched. */
  lemma TakenNameIsRefused(s: State, a: Action)
    requires Enabled(s, a) && (a.CheckExists? || a.Reserve?) && s.attempts[a.r].name in s.reserved
    ensures Do(s, a) == s.(attempts := s.attempts - {a.r})
  {
  }

  /** The run r claimed the name and is gone. */
  predicate Spent(s: State, name: string, r: RunId) {
    name in s.reserved && s.reserved[name] == r && r in s.past && r !in s.attempts
  }

  lemma SpentStep(s: State, a: Action, name: string, r: RunId, g: Group)
    requires Inv(s) && Enabled(s, a) && Spent(s, name, r)
    ensures Spent(Do(s, a), name, r) && (name in Do(s, a).certified <==> name in s.certified)
    ensures Count(Do(s, a).invoked, g, RestorePointName(name)) == Count(s.invoked, g, RestorePointName(name))
  {
    if !a.Start? { assert AttemptOk(s, a.r); }
    Counted(s, a, g, RestorePointName(name));
    if Creates(s, a, g, RestorePointName(name)) { WalNamesDiffer(name, s.attempts[a.r].name); }
  }

  lemma StepOfRun(ss: seq<State>, acts: seq<Action>, i: nat)
    requires IsRun(ss, acts) && i < |acts|
    ensures Enabled(ss[i], acts[i]) && ss[i+1] == Do(ss[i], acts[i])
  {
    assert StepAt(ss, acts, i);
  }

  lemma SpentStepOfRun(ss: seq<State>, acts: seq<Action>, i: nat, name: string, r: RunId, g: Group)
    requires IsRun(ss, acts) && i < |acts| && Spent(ss[i], name, r)
    ensures Spent(ss[i+1], name, r) && (name in ss[i+1].certified <==> name in ss[i].certified)
    ensures Count(ss[i+1].invoked, g, RestorePointName(name)) == Count(ss[i].invoked, g, RestorePointName(name))
  {
    RunKeepsInv(ss, acts, i);
    StepOfRun(ss, acts, i);
    SpentStep(ss[i], acts[i], name, r, g);
  }

  /** A name whose attempt is over keeps the restore points and the certificate it has, or
      the lack of them, whatever is tried with it later. */
  lemma {:induction false} SpentNameStays(ss: seq<State>, acts: seq<Action>, i: nat, j: nat, name: string, r: RunId, g: Group)
    requires IsRun(ss, acts) && i <= j < |ss| && Spent(ss[i], name, r)
    ensures Spent(ss[j], name, r) && (name in ss[j].certified <==> name in ss[i].certified)
    ensures Count(ss[j].invoked, g, RestorePointName(name)) == Count(ss[i].invoked, g, RestorePointName(name))
  {
    if i < j {
      SpentNameStays(ss, acts, i, j - 1, name, r, g);
      SpentStepOfRun(ss, acts, j - 1, name, r, g);
    }
  }

  /** A reservation whose reply was lost burns its name: it is claimed for good, gets no
      restore point on any group and is never certified. */
  lemma UnansweredNameIsBurnt(ss: seq<State>, acts: seq<Action>, i: nat, j: nat, g: Group)
    requires IsRun(ss, acts) && i < j < |ss| && StepAt(ss, acts, i) && acts[i].Reserve? && !acts[i].replied
    requires ss[i].attempts[acts[i].r].name !in ss[i].reserved
    ensures var name := ss[i].attempts[acts[i].r].name;
      name in ss[j].reserved && name !in ss[j].certified && Count(ss[j].invoked, g, RestorePointName(name)) == 0
  {
    var name := ss[i].attempts[acts[i].r].name;
    RunKeepsInv(ss, acts, i);
    assert AttemptOk(ss[i], acts[i].r);
    assert StepAt(ss, acts, i);
    SpentNameStays(ss, acts, i + 1, j, name, acts[i].r, g);
  }

  lemma {:induction false} CertifierIsGone(ss: seq<State>, acts: seq<Action>, i: nat, name: string)
    requires IsRun(ss, acts) && i < |ss| && name in ss[i].certified
    ensures ss[i].certified[name] in ss[i].past && ss[i].certified[name] !in ss[i].attempts
  {
    RunKeepsInv(ss, acts, i);
    if i > 0 {
      assert StepAt(ss, acts, i - 1);
      if name in ss[i-1].certified { CertifierIsGone(ss, acts, i - 1, name); }
    }
  }

  lemma Take(ss: seq<State>, acts: seq<Action>, a: Action) returns (ss': seq<State>, acts': seq<Action>)
    requires IsRun(ss, acts) && Enabled(ss[|acts|], a)
    ensures IsRun(ss', acts') && acts' == acts + [a] && ss' == ss + [Do(ss[|acts|], a)]
  {
    ss', acts' := ss + [Do(ss[|acts|], a)], acts + [a];
    forall i: nat | i < |acts'| ensures StepAt(ss', acts', i) {
      if i < |acts| { assert StepAt(ss, acts, i); }
    }
  }

  predicate ExactlyOnce(s: State, gs: set<Group>, wal: string) {
    forall g | g in gs :: Count(s.invoked, g, wal) == 1
  }

  lemma {:induction false} CanPointAll(ss: seq<State>, acts: seq<Action>, r: RunId) returns (ss': seq<State>, acts': seq<Action>)
    requires IsRun(ss, acts) && At(ss[|acts|], r, Pointing)
    ensures IsRun(ss', acts') && ss <= ss' && acts <= acts' && At(ss'[|acts'|], r, Pointing)
    ensures ss'[|acts'|].attempts[r] == ss[|acts|].attempts[r].(left := {})
    ensures ExactlyOnce(ss'[|acts'|], ss[|acts|].attempts[r].left, RestorePointName(ss[|acts|].attempts[r].name))
    decreases |ss[|acts|].attempts[r].left|
  {
    var s := ss[|acts|];
    var wal := RestorePointName(s.attempts[r].name);
    if s.attempts[r].left == {} {
      ss', acts' := ss, acts;
    } else {
      var g :| g in s.attempts[r].left;
      RunKeepsInv(ss, acts, |acts|);
      assert AttemptOk(s, r);
      ss', acts' := Take(ss, acts, CreatePoint(r, g, true));
      var n := |acts'|;
      assert ss'[n].attempts[r].left == s.attempts[r].left - {g};
      var ts := ss';
      ss', acts' := CanPointAll(ts, acts', r);
      assert ss'[n] == ts[n];
      CountGrows(ss', acts', n, |acts'|, g, wal);
      RunKeepsInv(ss', acts', |acts'|);
      assert Count(ss'[|acts'|].invoked, g, wal) == 1;
    }
  }

  /** A name nobody has claimed can always be certified, with exactly one restore point on
      each group the attempt lists. */
  lemma FreshNameCanBeCertified(ss: seq<State>, acts: seq<Action>, r: RunId, name: string, gs: set<Group>)
    returns (ss': seq<State>, acts': seq<Action>)
    requires IsRun(ss, acts) && r !in ss[|acts|].past && ValidName(name) && name !in ss[|acts|].reserved
    ensures IsRun(ss', acts') && acts <= acts' && name in ss'[|acts'|].certified && ss'[|acts'|].certified[name] == r
    ensures ExactlyOnce(ss'[|acts'|], gs, RestorePointName(name))
  {
    ss', acts' := Take(ss, acts, Start(r, name));
    ss', acts' := Take(ss', acts', CheckExists(r));
    ss', acts' := Take(ss', acts', Reserve(r, true));
    ss', acts' := Take(ss', acts', List(r, gs));
    ss', acts' := CanPointAll(ss', acts', r);
    ss', acts' := Take(ss', acts', DonePointing(r));
    ss', acts' := RecordsIt(ss', acts', r);
  }

  lemma RecordsIt(ss: seq<State>, acts: seq<Action>, r: RunId) returns (ss': seq<State>, acts': seq<Action>)
    requires IsRun(ss, acts) && At(ss[|acts|], r, Recording)
    ensures IsRun(ss', acts') && acts <= acts' && ss'[|acts'|].invoked == ss[|acts|].invoked
    ensures var name := ss[|acts|].attempts[r].name;
      name in ss'[|acts'|].certified && ss'[|acts'|].certified[name] == r
  {
    RunKeepsInv(ss, acts, |acts|);
    assert AttemptOk(ss[|acts|], r);
    if ss[|acts|].attempts[r].name in ss[|acts|].certified { CertifierIsGone(ss, acts, |acts|, ss[|acts|].attempts[r].name); }
    ss', acts' := Take(ss, acts, Record(r, true));
  }
}
