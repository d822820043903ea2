/**
 The shard's primary lease: one object on the API server, read and written by any
 number of agents whose calls interleave.  Every write is conditional on the version
 that was read.  All agents read one clock, in microseconds.
 */
module Lease {
  import opened Common

  type Agent = string
  type CallId = nat

  const SECOND := 1_000_000

  /** The lease object; an empty holder is nobody. */
  datatype LeaseObject = LeaseObject(version: nat, holder: Agent, renewed: Option<int>, seconds: Option<int>, transitions: nat)

  datatype Purpose = Acquire | Release

  /** An agent's call in flight: it has read the object, has found that it may take
      it, or has the object it wants written. */
  datatype Stage = Read | MayTake | Ready(out: LeaseObject)

  /** `began` is when the call read the object. */
  datatype Call = Call(agent: Agent, purpose: Purpose, read: Option<LeaseObject>, began: int, stage: Stage)

  /** `durations` is each agent's configured lease duration. */
  datatype State = State(lease: Option<LeaseObject>, now: int, calls: map<CallId, Call>, durations: map<Agent, nat>)

  datatype Action =
    | Tick(by_: nat)
    | Get(c: CallId, agent: Agent, purpose: Purpose)
    | Judge(c: CallId)
    | Stamp(c: CallId)
    | Write(c: CallId)
    | Drop(c: CallId)
    | Touch

  /** The duration as it is recorded: whole seconds, the rest cut off. */
  function WholeSeconds(duration: nat): nat {
    duration / SECOND
  }

  /** An agent may take a lease nobody holds, its own, one never renewed, or one whose
      recorded duration has passed. */
  predicate CanTake(cur: LeaseObject, agent: Agent, now: int, duration: nat) {
    || cur.holder == "" || cur.holder == agent
    || cur.renewed.None?
    || now > cur.renewed.value + (if cur.seconds.Some? then cur.seconds.value else WholeSeconds(duration)) * SECOND
  }

  /** The object an agent that takes or renews the lease wants written. */
  function Taken(base: Option<LeaseObject>, agent: Agent, now: int, duration: nat): LeaseObject {
    var version, transitions := if base.Some? then base.value.version else 0, if base.Some? then base.value.transitions else 0;
    var kept := base.Some? && base.value.holder == agent;
    LeaseObject(version, agent, Some(now), Some(WholeSeconds(duration)), if kept then transitions else transitions + 1)
  }

  predicate Enabled(s: State, a: Action) {
    match a
    case Tick(_) => true
    case Get(c, agent, _) => c !in s.calls && agent in s.durations && agent != ""
    case Judge(c) =>
      && c in s.calls && s.calls[c].purpose == Acquire && s.calls[c].stage == Read && s.calls[c].agent in s.durations
      && (s.calls[c].read.Some? ==> CanTake(s.calls[c].read.value, s.calls[c].agent, s.now, s.durations[s.calls[c].agent]))
    case Stamp(c) =>
      && c in s.calls && s.calls[c].agent in s.durations
      && (if s.calls[c].purpose == Acquire then s.calls[c].stage == MayTake
          else s.calls[c].stage == Read && s.calls[c].read.Some? && s.calls[c].read.value.holder == s.calls[c].agent)
    case Write(c) => c in s.calls && s.calls[c].stage.Ready?
    case Drop(c) => c in s.calls
    case Touch => s.lease.Some?
  }

  /** The API server's answer to a write: a create succeeds when there is no object, an
      update when the version is still the one read. */
  predicate Accepted(s: State, c: Call) {
    if c.read.None? then s.lease.None? else s.lease.Some? && s.lease.value.version == c.read.value.version
  }

  function Do(s: State, a: Action): State
    requires Enabled(s, a)
  {
    match a
    case Tick(d) => s.(now := s.now + d)
    case Get(c, agent, purpose) => s.(calls := s.calls[c := Call(agent, purpose, s.lease, s.now, Read)])
    case Judge(c) => s.(calls := s.calls[c := s.calls[c].(stage := MayTake)])
    case Stamp(c) =>
      var x := s.calls[c];
      var out := if x.purpose == Acquire then Taken(x.read, x.agent, s.now, s.durations[x.agent]) else x.read.value.(holder := "");
      s.(calls := s.calls[c := x.(stage := Ready(out))])
    case Write(c) =>
      var s' := s.(calls := s.calls - {c});
      if Accepted(s, s.calls[c]) then s'.(lease := Some(s.calls[c].stage.out.(version := s.calls[c].stage.out.version + 1))) else s'
    case Drop(c) => s.(calls := s.calls - {c})
    case Touch => s.(lease := Some(s.lease.value.(version := s.lease.value.version + 1)))
  }

  predicate Init(s: State) {
    s.lease.None? && s.calls == map[]
  }

  predicate StepAt(ss: seq<State>, acts: seq<Action>, i: nat)
    requires |ss| == |acts| + 1 && i < |acts|
  {
    Enabled(ss[i], acts[i]) && ss[i+1] == Do(ss[i], acts[i])
  }

  ghost predicate IsRun(ss: seq<State>, acts: seq<Action>) {
    && |ss| == |acts| + 1 && Init(ss[0])
    && forall i: nat | i < |acts| :: StepAt(ss, acts, i)
  }

  function Holder(o: Option<LeaseObject>): Agent {
    if o.Some? then o.value.holder else ""
  }

  function Transitions(o: Option<LeaseObject>): nat {
    if o.Some? then o.value.transitions else 0
  }

  /** The recorded term of the holder has passed. */
  predicate RanOut(o: LeaseObject, now: int) {
    o.renewed.Some? && o.seconds.Some? && now > o.renewed.value + o.seconds.value * SECOND
  }

  // ---------------------------------------------------------- invariants

  /** Who holds the lease recorded a renewal and its own duration. */
  predicate ObjectOk(o: Option<LeaseObject>, durations: map<Agent, nat>) {
    Holder(o) != "" ==>
      && o.value.renewed.Some? && o.value.holder in durations
      && o.value.seconds == Some(WholeSeconds(durations[o.value.holder]))
  }

  /** A version is written once, so an object read with the version now stored is the
      object now stored. */
  predicate CallOk(s: State, c: Call) {
    && c.agent != "" && c.agent in s.durations && c.began <= s.now
    && ObjectOk(c.read, s.durations)
    && (c.read.Some? ==> s.lease.Some? && c.read.value.version <= s.lease.value.version)
    && (c.read.Some? && c.read.value.version == s.lease.value.version ==> c.read == s.lease)
    && (c.purpose == Acquire && c.stage != Read && Holder(c.read) != "" && Holder(c.read) != c.agent ==>
          RanOut(c.read.value, s.now))
    && (c.stage.Ready? ==> OutOk(s, c))
  }

  predicate OutOk(s: State, c: Call)
    requires c.stage.Ready?
  {
    var out := c.stage.out;
    && (c.read.Some? ==> out.version == c.read.value.version)
    && (if c.purpose == Release then c.read.Some? && Holder(c.read) == c.agent && out == c.read.value.(holder := "")
        else
          && out.holder == c.agent && out.renewed.Some? && c.began <= out.renewed.value <= s.now
          && c.agent in s.durations && out.seconds == Some(WholeSeconds(s.durations[c.agent]))
          && out.transitions == Transitions(c.read) + (if Holder(c.read) == c.agent then 0 else 1))
  }

  ghost predicate Inv(s: State) {
    && ObjectOk(s.lease, s.durations)
    && forall c | c in s.calls :: CallOk(s, s.calls[c])
  }

  /** The object is the same, or another under a later version. */
  predicate MovesOn(s: State, s': State) {
    && s'.durations == s.durations && s.now <= s'.now
    && (s'.lease == s.lease || (s'.lease.Some? && (s.lease.Some? ==> s.lease.value.version < s'.lease.value.version)))
  }

  lemma CallStays(s: State, s': State, x: Call)
    requires CallOk(s, x) && MovesOn(s, s')
    ensures CallOk(s', x)
  {
  }

  lemma StepMovesOn(s: State, a: Action)
    requires Inv(s) && Enabled(s, a)
    ensures MovesOn(s, Do(s, a))
  {
    if a.Write? {
      assert CallOk(s, s.calls[a.c]);
    }
  }

  /** A call's own next step, and a call that begins. */
  lemma CallSteps(s: State, a: Action)
    requires Inv(s) && Enabled(s, a) && (a.Get? || a.Judge? || a.Stamp?)
    ensures CallOk(s, Do(s, a).calls[a.c])
  {
    if !a.Get? {
      assert CallOk(s, s.calls[a.c]);
    }
  }

  lemma StepKeepsCall(s: State, a: Action, c: CallId)
    requires Inv(s) && Enabled(s, a) && c in Do(s, a).calls
    ensures CallOk(Do(s, a), Do(s, a).calls[c])
  {
    StepMovesOn(s, a);
    if (a.Get? || a.Judge? || a.Stamp?) && a.c == c {
      CallSteps(s, a);
    }
    CallStays(s, Do(s, a), Do(s, a).calls[c]);
  }

  lemma StepKeepsInv(s: State, a: Action)
    requires Inv(s) && Enabled(s, a)
    ensures Inv(Do(s, a))
  {
    var s' := Do(s, a);
    forall c | c in s'.calls ensures CallOk(s', s'.calls[c]) {
      StepKeepsCall(s, a, c);
    }
    if a.Write? {
      assert CallOk(s, s.calls[a.c]);
    }
  }

  lemma {:induction false} RunKeepsInv(ss: seq<State>, acts: seq<Action>, i: nat)
    requires IsRun(ss, acts) && i < |ss|
    ensures Inv(ss[i]) && ss[i].durations == ss[0].durations
  {
    if i > 0 {
      RunKeepsInv(ss, acts, i - 1);
      assert StepAt(ss, acts, i - 1);
      StepKeepsInv(ss[i-1], acts[i-1]);
    }
  }

  // ------------------------------------------------------------ theorems

  /** The step is the holder's own release. */
  predicate Releases(s: State, a: Action, agent: Agent) {
    a.Write? && a.c in s.calls && s.calls[a.c].purpose == Release && s.calls[a.c].agent == agent
  }

  /** One step takes the lease from its holder only by the holder's release, or when
      the holder's recorded term has passed. */
  lemma StepHandsOver(s: State, a: Action)
    requires Inv(s) && Enabled(s, a) && Holder(s.lease) != "" && Holder(Do(s, a).lease) != Holder(s.lease)
    ensures if Holder(Do(s, a).lease) == "" then Releases(s, a, Holder(s.lease)) else RanOut(s.lease.value, s.now)
  {
    assert a.Write?;
    assert CallOk(s, s.calls[a.c]);
  }

  /** At step k the agent's lease ends: by its own release, accepted, after which nobody
      holds it, or by a takeover when its recorded term had passed. */
  predicate GaveWay(ss: seq<State>, acts: seq<Action>, k: nat, agent: Agent)
    requires k < |acts| && k + 1 < |ss|
  {
    && ss[k].lease.Some? && Holder(ss[k].lease) == agent && Holder(ss[k+1].lease) != agent
    && if Holder(ss[k+1].lease) == "" then Releases(ss[k], acts[k], agent) else RanOut(ss[k].lease.value, ss[k].now)
  }

  /** The lease passes from A to a different B only after A released it, or strictly
      after A's last recorded renewal plus its recorded duration. */
  lemma {:induction false} PassesOnOnlyWhenGivenUp(ss: seq<State>, acts: seq<Action>, i: nat, j: nat)
    requires IsRun(ss, acts) && i < j < |ss|
    requires Holder(ss[i].lease) != "" && Holder(ss[j].lease) != Holder(ss[i].lease)
    ensures exists k | i <= k < j :: GaveWay(ss, acts, k, Holder(ss[i].lease))
    decreases j
  {
    RunKeepsInv(ss, acts, j - 1);
    assert StepAt(ss, acts, j - 1);
    if Holder(ss[j-1].lease) == Holder(ss[i].lease) {
      StepHandsOver(ss[j-1], acts[j-1]);
      assert GaveWay(ss, acts, j - 1, Holder(ss[i].lease));
    } else {
      PassesOnOnlyWhenGivenUp(ss, acts, i, j - 1);
    }
  }

  /** Who may take the lease: in every run, a call that has read no object, one nobody
      holds, or its own agent's, may go on at once; one that has read another holder's may
      exactly when that holder's recorded term has passed. */
  lemma MayTakeIff(ss: seq<State>, acts: seq<Action>, i: nat, c: CallId)
    requires IsRun(ss, acts) && i < |ss| && c in ss[i].calls
    requires ss[i].calls[c].purpose == Acquire && ss[i].calls[c].stage == Read
    ensures var x := ss[i].calls[c];
      Enabled(ss[i], Judge(c)) <==>
        Holder(x.read) == "" || Holder(x.read) == x.agent || RanOut(x.read.value, ss[i].now)
  {
    RunKeepsInv(ss, acts, i);
    assert CallOk(ss[i], ss[i].calls[c]);
  }

  /** A call that goes on without another write in between holds the lease from then on:
      renewed now for its own duration, under the same transition count if it had it. */
  lemma TakesIt(s: State, c: CallId)
    requires Inv(s) && Enabled(s, Judge(c)) && s.calls[c].read == s.lease
    ensures var s1 := Do(s, Judge(c));
      && Enabled(s1, Stamp(c)) && Enabled(Do(s1, Stamp(c)), Write(c))
      && var s3, x := Do(Do(s1, Stamp(c)), Write(c)), s.calls[c];
         && Holder(s3.lease) == x.agent && s3.lease.value.renewed == Some(s.now)
         && s3.lease.value.seconds == Some(WholeSeconds(s.durations[x.agent]))
         && Transitions(s3.lease) == Transitions(s.lease) + (if Holder(s.lease) == x.agent then 0 else 1)
  {
    var s1 := Do(s, Judge(c));
    var s2 := Do(s1, Stamp(c));
    assert s2.calls[c].stage.out == Taken(s.lease, s.calls[c].agent, s.now, s.durations[s.calls[c].agent]);
  }

  /** And a release that goes through leaves nobody, for the next to take at once. */
  lemma ReleasesIt(s: State, c: CallId)
    requires Inv(s) && c in s.calls && s.calls[c].purpose == Release && s.calls[c].stage == Read
    requires s.calls[c].read == s.lease && Holder(s.lease) == s.calls[c].agent
    ensures Enabled(s, Stamp(c)) && Enabled(Do(s, Stamp(c)), Write(c))
    ensures Holder(Do(Do(s, Stamp(c)), Write(c)).lease) == "" && Transitions(Do(Do(s, Stamp(c)), Write(c)).lease) == Transitions(s.lease)
  {
    assert CallOk(s, s.calls[c]);
    var s1 := Do(s, Stamp(c));
    assert s1.calls[c].stage.out == s.lease.value.(holder := "");
  }

  /** What a call that acquires or renews the lease records is its agent, its own
      duration, and a time between its read and its write; a release records nobody and
      changes nothing else. */
  lemma WritesWhatItIs(ss: seq<State>, acts: seq<Action>, i: nat)
    requires IsRun(ss, acts) && i < |acts| && StepAt(ss, acts, i) && acts[i].Write? && ss[i+1].lease != ss[i].lease
    ensures ss[i+1].lease.Some?
    ensures var c, o := ss[i].calls[acts[i].c], ss[i+1].lease.value;
      if c.purpose == Release then
        ss[i].lease.Some? && Holder(ss[i].lease) == c.agent && o == ss[i].lease.value.(holder := "", version := ss[i].lease.value.version + 1)
      else
        && o.holder == c.agent && c.agent in ss[i].durations && o.seconds == Some(WholeSeconds(ss[i].durations[c.agent]))
        && o.renewed.Some? && c.began <= o.renewed.value <= ss[i].now
  {
    RunKeepsInv(ss, acts, i);
    assert StepAt(ss, acts, i);
    assert CallOk(ss[i], ss[i].calls[acts[i].c]);
  }

  /** How often an agent took the lease from nobody or from another. */
  function Takeovers(ss: seq<State>, i: nat): nat
    requires i < |ss|
  {
    if i == 0 then 0
    else
      var before, after := Holder(ss[i-1].lease), Holder(ss[i].lease);
      Takeovers(ss, i - 1) + if after != before && after != "" then 1 else 0
  }

  lemma StepCounts(s: State, a: Action)
    requires Inv(s) && Enabled(s, a)
    ensures var before, after := Holder(s.lease), Holder(Do(s, a).lease);
      Transitions(Do(s, a).lease) == Transitions(s.lease) + if after != before && after != "" then 1 else 0
  {
    if a.Write? {
      assert CallOk(s, s.calls[a.c]);
    }
  }

  /** The transition count of the object is the number of takeovers, in every run. */
  lemma {:induction false} TransitionsCountTakeovers(ss: seq<State>, acts: seq<Action>, i: nat)
    requires IsRun(ss, acts) && i < |ss|
    ensures Transitions(ss[i].lease) == Takeovers(ss, i)
  {
    if i > 0 {
      TransitionsCountTakeovers(ss, acts, i - 1);
      RunKeepsInv(ss, acts, i - 1);
      assert StepAt(ss, acts, i - 1);
      StepCounts(ss[i-1], acts[i-1]);
    }
  }

  /** The lease is taken from a holder that has not released it before its own
      configured duration since its last renewal is up. */
  predicate TakenEarly(s: State, s': State) {
    && Holder(s.lease) != "" && Holder(s'.lease) != "" && Holder(s'.lease) != Holder(s.lease)
    && s.lease.value.renewed.Some? && Holder(s.lease) in s.durations
    && s.now <= s.lease.value.renewed.value + s.durations[Holder(s.lease)]
  }

  /** With a duration of whole seconds no takeover is early. */
  lemma WholeSecondsAreKept(ss: seq<State>, acts: seq<Action>, i: nat)
    requires IsRun(ss, acts) && i < |acts|
    requires Holder(ss[i].lease) in ss[i].durations && ss[i].durations[Holder(ss[i].lease)] % SECOND == 0
    ensures !TakenEarly(ss[i], ss[i+1])
  {
    RunKeepsInv(ss, acts, i);
    assert StepAt(ss, acts, i);
    if Holder(ss[i].lease) != "" && Holder(ss[i+1].lease) != Holder(ss[i].lease) {
      StepHandsOver(ss[i], acts[i]);
    }
  }

  /** An object that some other hand left without a duration is judged as if the agent had
      recorded its own in it; one that was never renewed is free for anybody. */
  lemma IncompleteLeases(cur: LeaseObject, agent: Agent, now: int, duration: nat)
    ensures CanTake(cur.(seconds := None), agent, now, duration) <==> CanTake(cur.(seconds := Some(WholeSeconds(duration))), agent, now, duration)
    ensures CanTake(cur.(renewed := None), agent, now, duration)
  {
  }

  /** Whatever is written to the object after a call has read it, the call's own write is
      refused. */
  lemma WriteAfterATouchFails(ss: seq<State>, acts: seq<Action>, c: CallId) returns (ss': seq<State>, acts': seq<Action>)
    requires IsRun(ss, acts) && Enabled(ss[|acts|], Write(c)) && ss[|acts|].lease.Some?
    ensures IsRun(ss', acts') && Enabled(ss'[|acts'|], Write(c)) && ss'[|acts'|].calls == ss[|acts|].calls
    ensures Do(ss'[|acts'|], Write(c)).lease == ss'[|acts'|].lease && Holder(ss'[|acts'|].lease) == Holder(ss[|acts|].lease)
  {
    RunKeepsInv(ss, acts, |acts|);
    assert CallOk(ss[|acts|], ss[|acts|].calls[c]);
    ss', acts' := Extend(ss, acts, Touch);
  }

  // -------------------------------------------- durations with a fraction

  lemma Extend(ss: seq<State>, acts: seq<Action>, a: Action) returns (ss': seq<State>, acts': seq<Action>)
    requires IsRun(ss, acts) && Enabled(ss[|acts|], a)
    ensures IsRun(ss', acts') && |acts'| == |acts| + 1
    ensures ss'[|acts'|] == Do(ss[|acts|], a) && ss'[|acts|] == ss[|acts|]
  {
    ss', acts' := ss + [Do(ss[|acts|], a)], acts + [a];
    forall i: nat | i < |acts'| ensures StepAt(ss', acts', i) {
      if i < |acts| { assert StepAt(ss, acts, i); }
    }
  }

  /** An agent holds the lease, renewed at time 0. */
  lemma FirstHolder(duration: nat) returns (ss: seq<State>, acts: seq<Action>)
    ensures IsRun(ss, acts)
    ensures ss[|acts|] == State(Some(LeaseObject(1, "a", Some(0), Some(WholeSeconds(duration)), 1)), 0, map[], map["a" := duration, "b" := duration])
  {
    ss, acts := [State(None, 0, map[], map["a" := duration, "b" := duration])], [];
    ss, acts := Extend(ss, acts, Get(0, "a", Acquire));
    ss, acts := Extend(ss, acts, Judge(0));
    ss, acts := Extend(ss, acts, Stamp(0));
    ss, acts := Extend(ss, acts, Write(0));
    assert ss[|acts|].calls == map[];
  }

  /** Any duration with a fraction of a second is recorded short, and a run exists in
      which the lease is taken early. */
  lemma FractionsAreTakenEarly(duration: nat) returns (ss: seq<State>, acts: seq<Action>)
    requires duration % SECOND != 0
    ensures IsRun(ss, acts) && |acts| > 0 && TakenEarly(ss[|acts|-1], ss[|acts|])
  {
    ss, acts := FirstHolder(duration);
    ss, acts := Extend(ss, acts, Tick(duration));
    ss, acts := Extend(ss, acts, Get(0, "b", Acquire));
    ss, acts := Extend(ss, acts, Judge(0));
    ss, acts := Extend(ss, acts, Stamp(0));
    ss, acts := Extend(ss, acts, Write(0));
  }

  // --------------------------------------------------------- holding it

  datatype Renewal = Renewed | HeldByAnother | Errored

  datatype HoldEnd = Cancelled | TakenByAnother | NotRenewed

  /** When the lease was last known renewed before round i; `started` before the first. */
  function LastRenewed(started: int, clock: nat -> int, renewal: nat -> Renewal, i: nat): int {
    if i == 0 then started
    else if renewal(i - 1) == Renewed then clock(i - 1)
    else LastRenewed(started, clock, renewal, i - 1)
  }

  /** The round renewed the lease, or failed with the last renewal recent enough. */
  predicate InTime(duration: nat, started: int, clock: nat -> int, renewal: nat -> Renewal, i: nat) {
    || renewal(i) == Renewed
    || (renewal(i) == Errored && clock(i) <= LastRenewed(started, clock, renewal, i) + duration)
  }

  /** The renewal loop, cancelled after some rounds: it reports a loss in the first round
      in which another holds the lease, or in which a renewal fails with more than the
      duration gone since the last one that did not; in every round before that, neither. */
  method Hold(duration: nat, started: int, clock: nat -> int, renewal: nat -> Renewal, rounds: nat) returns (end: HoldEnd, at: nat)
    ensures at <= rounds && (end == Cancelled <==> at == rounds)
    ensures end == TakenByAnother ==> renewal(at) == HeldByAnother
    ensures end == NotRenewed ==> renewal(at) == Errored && clock(at) > LastRenewed(started, clock, renewal, at) + duration
    ensures forall i: nat | i < at :: InTime(duration, started, clock, renewal, i)
  {
    var deadline := started + duration;
    at := 0;
    while at < rounds
      invariant at <= rounds && deadline == LastRenewed(started, clock, renewal, at) + duration
      invariant forall i: nat | i < at :: InTime(duration, started, clock, renewal, i)
    {
      var answer, now := renewal(at), clock(at);
      if answer == HeldByAnother {
        return TakenByAnother, at;
      }
      if answer == Errored && now > deadline {
        return NotRenewed, at;
      }
      if answer == Renewed {
        deadline := now + duration;
      }
      assert InTime(duration, started, clock, renewal, at);
      at := at + 1;
    }
    return Cancelled, at;
  }
}
