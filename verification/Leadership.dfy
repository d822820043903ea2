/**
 How a controller comes to lead: it takes the advisory lock on a connection of its own,
 takes the next term on that connection, and publishes the term; the published term is
 also the flag its workers read.  The connection can be lost at any time, and the
 process notices later.  Any number of controllers campaign at once.
 */
module Leadership {
  import opened Common

  type Controller = nat

  /** What a controller has of the leadership: nothing, the lock, a term not published
      yet, or a published one. */
  datatype Stage = Waiting | Locked | Took(term: nat) | Leading(term: nat)

  datatype State = State(lock: Option<Controller>, term: nat, stages: map<Controller, Stage>)

  datatype Action =
    | Lock(p: Controller)
    | TakeTerm(p: Controller)
    | Publish(p: Controller)
    | LoseConnection
    | Stop(p: Controller)

  function StageOf(s: State, p: Controller): Stage {
    if p in s.stages then s.stages[p] else Waiting
  }

  predicate Enabled(s: State, a: Action) {
    match a
    case Lock(p) => s.lock.None? && StageOf(s, p) == Waiting
    case TakeTerm(p) => s.lock == Some(p) && StageOf(s, p) == Locked
    case Publish(p) => StageOf(s, p).Took?
    case LoseConnection => s.lock.Some?
    case Stop(p) => true
  }

  function Do(s: State, a: Action): State
    requires Enabled(s, a)
  {
    match a
    case Lock(p) => s.(lock := Some(p), stages := s.stages[p := Locked])
    case TakeTerm(p) => s.(term := s.term + 1, stages := s.stages[p := Took(s.term + 1)])
    case Publish(p) => s.(stages := s.stages[p := Leading(StageOf(s, p).term)])
    case LoseConnection => s.(lock := None)
    case Stop(p) => s.(lock := if s.lock == Some(p) then None else s.lock, stages := s.stages[p := Waiting])
  }

  ghost predicate IsRun(ss: seq<State>, acts: seq<Action>) {
    && |ss| == |acts| + 1 && ss[0].lock.None? && ss[0].stages == map[]
    && forall i | 0 <= i < |acts| :: Enabled(ss[i], acts[i]) && ss[i+1] == Do(ss[i], acts[i])
  }

  /** The term a controller's workers read: none when it does not lead. */
  function LeadingUnder(s: State, p: Controller): Option<nat> {
    if StageOf(s, p).Leading? then Some(StageOf(s, p).term) else None
  }

  // ---------------------------------------------------------- invariants

  /** Terms held are terms taken. */
  predicate Held(s: State, p: Controller) {
    StageOf(s, p).Took? || StageOf(s, p).Leading? ==> StageOf(s, p).term <= s.term
  }

  lemma {:induction false} RunKeepsHeld(ss: seq<State>, acts: seq<Action>, i: nat, p: Controller)
    requires IsRun(ss, acts) && i < |ss|
    ensures Held(ss[i], p)
  {
    if i > 0 {
      RunKeepsHeld(ss, acts, i - 1, p);
      assert ss[i-1+1] == Do(ss[i-1], acts[i-1]);
    }
  }

  lemma {:induction false} TermsGrow(ss: seq<State>, acts: seq<Action>, i: nat, j: nat)
    requires IsRun(ss, acts) && i <= j < |ss|
    ensures ss[i].term <= ss[j].term
  {
    if i < j {
      TermsGrow(ss, acts, i, j - 1);
      assert ss[j-1+1] == Do(ss[j-1], acts[j-1]);
    }
  }

  /** The controller is done with the term: whatever it has now is later. */
  predicate Past(s: State, p: Controller, own: nat) {
    own <= s.term && (StageOf(s, p).Took? || StageOf(s, p).Leading? ==> own < StageOf(s, p).term)
  }

  predicate LeadsUnder(s: State, p: Controller, own: nat) {
    own <= s.term && StageOf(s, p) == Leading(own)
  }

  lemma LeadingStep(s: State, a: Action, p: Controller, own: nat)
    requires Enabled(s, a)
    ensures Past(s, p, own) ==> Past(Do(s, a), p, own)
    ensures LeadsUnder(s, p, own) ==> LeadsUnder(Do(s, a), p, own) || Past(Do(s, a), p, own)
  {
  }

  lemma {:induction false} LeadsOrIsPast(ss: seq<State>, acts: seq<Action>, i: nat, j: nat, p: Controller, own: nat)
    requires IsRun(ss, acts) && i <= j < |ss| && (LeadsUnder(ss[i], p, own) || Past(ss[i], p, own))
    ensures LeadsUnder(ss[j], p, own) || Past(ss[j], p, own)
    ensures Past(ss[i], p, own) ==> Past(ss[j], p, own)
  {
    if i < j {
      LeadsOrIsPast(ss, acts, i, j - 1, p, own);
      assert ss[j-1+1] == Do(ss[j-1], acts[j-1]);
      LeadingStep(ss[j-1], acts[j-1], p, own);
    }
  }

  // ------------------------------------------------ what one process sees

  /** The term on record, and the one the process leads under, if it does. */
  datatype Moment = Moment(term: nat, leading: Option<nat>)

  /** A pass that latched the term `own` sees from then on: terms only grow, the process
      leads under none that was not recorded and none before its own, and once it has
      stopped leading under its own it never leads under it again. */
  ghost predicate Timeline(tl: nat -> Moment, own: nat) {
    && (forall i: nat :: own <= tl(i).term)
    && (forall i: nat, j: nat | i <= j :: tl(i).term <= tl(j).term)
    && (forall i: nat :: tl(i).leading.Some? ==> own <= tl(i).leading.value <= tl(i).term)
    && (forall i: nat, j: nat | i <= j && tl(j).leading == Some(own) :: tl(i).leading == Some(own))
  }

  /** The i-th state from k on, the last one for good. */
  function From(ss: seq<State>, k: nat, i: nat): State
    requires k < |ss|
  {
    if k + i < |ss| then ss[k+i] else ss[|ss|-1]
  }

  /** A pass of controller p that latched its term at state `at` of a run. */
  datatype Latch = Latch(ss: seq<State>, acts: seq<Action>, at: nat, p: Controller, term: nat)

  ghost predicate Latched(l: Latch) {
    IsRun(l.ss, l.acts) && l.at < |l.ss| && LeadingUnder(l.ss[l.at], l.p) == Some(l.term)
  }

  /** What it sees from then on. */
  function Seen(l: Latch): nat -> Moment
    requires l.at < |l.ss|
  {
    (i: nat) => Moment(From(l.ss, l.at, i).term, LeadingUnder(From(l.ss, l.at, i), l.p))
  }

  lemma MomentOk(l: Latch, i: nat)
    requires Latched(l)
    ensures var m := Seen(l)(i); l.term <= m.term && (m.leading.Some? ==> l.term <= m.leading.value <= m.term)
  {
    var n := if l.at + i < |l.ss| then l.at + i else |l.ss| - 1;
    RunKeepsHeld(l.ss, l.acts, l.at, l.p);
    RunKeepsHeld(l.ss, l.acts, n, l.p);
    LeadsOrIsPast(l.ss, l.acts, l.at, n, l.p, l.term);
  }

  lemma MomentsOk(l: Latch, i: nat, j: nat)
    requires Latched(l) && i <= j
    ensures var tl := Seen(l);
      tl(i).term <= tl(j).term && (tl(j).leading == Some(l.term) ==> tl(i).leading == Some(l.term))
  {
    var n := if l.at + i < |l.ss| then l.at + i else |l.ss| - 1;
    var m := if l.at + j < |l.ss| then l.at + j else |l.ss| - 1;
    RunKeepsHeld(l.ss, l.acts, l.at, l.p);
    TermsGrow(l.ss, l.acts, n, m);
    LeadsOrIsPast(l.ss, l.acts, l.at, n, l.p, l.term);
    LeadsOrIsPast(l.ss, l.acts, n, m, l.p, l.term);
  }

  /** In every run of campaigning controllers, what any process sees from a moment at which
      it leads under a term is a timeline of that term. */
  lemma LeadersSeeTimelines(l: Latch)
    requires Latched(l)
    ensures Timeline(Seen(l), l.term)
  {
    var tl := Seen(l);
    forall i: nat ensures l.term <= tl(i).term && (tl(i).leading.Some? ==> l.term <= tl(i).leading.value <= tl(i).term) {
      MomentOk(l, i);
    }
    forall i: nat, j: nat | i <= j
      ensures tl(i).term <= tl(j).term && (tl(j).leading == Some(l.term) ==> tl(i).leading == Some(l.term))
    {
      MomentsOk(l, i, j);
    }
  }

  /** Once the process has been seen not leading, a later moment at which it leads is under
      a later term, which is on record from then on. */
  lemma RegainedIsSuperseded(tl: nat -> Moment, own: nat, i: nat, j: nat, m: nat)
    requires Timeline(tl, own) && i <= j <= m && tl(i).leading.None? && tl(j).leading.Some?
    ensures tl(m).term != own
  {
    assert tl(j).leading != Some(own);
    assert tl(j).term <= tl(m).term;
  }

  /** A controller that holds the lock and has a term has the one on record. */
  predicate HolderIsCurrent(s: State) {
    s.lock.Some? && (StageOf(s, s.lock.value).Took? || StageOf(s, s.lock.value).Leading?) ==>
      StageOf(s, s.lock.value).term == s.term
  }

  /** While the connection of a controller that took a term holds, no other takes one. */
  lemma {:induction false} HolderHasTheCurrentTerm(ss: seq<State>, acts: seq<Action>, i: nat)
    requires IsRun(ss, acts) && i < |ss|
    ensures HolderIsCurrent(ss[i])
  {
    if i > 0 {
      HolderHasTheCurrentTerm(ss, acts, i - 1);
      assert ss[i-1+1] == Do(ss[i-1], acts[i-1]);
    }
  }

  lemma Extend(ss: seq<State>, acts: seq<Action>, a: Action) returns (ss': seq<State>, acts': seq<Action>)
    requires IsRun(ss, acts) && Enabled(ss[|acts|], a)
    ensures IsRun(ss', acts') && acts' == acts + [a] && ss' == ss + [Do(ss[|acts|], a)]
  {
    Extends(ss, acts, a);
    ss', acts' := ss + [Do(ss[|acts|], a)], acts + [a];
  }

  /** Whoever leads, any other controller can come to lead, under a term above every one
      taken so far: it has only to wait for the leader's connection to be lost. */
  lemma AnyoneCanTakeOver(ss: seq<State>, acts: seq<Action>, p: Controller) returns (ss': seq<State>, acts': seq<Action>)
    requires IsRun(ss, acts)
    ensures IsRun(ss', acts') && acts <= acts' && LeadingUnder(ss'[|acts'|], p) == Some(ss[|acts|].term + 1)
  {
    ss', acts' := Extend(ss, acts, Stop(p));
    if ss'[|acts'|].lock.Some? {
      ss', acts' := Extend(ss', acts', LoseConnection);
    }
    ss', acts' := Extend(ss', acts', Lock(p));
    ss', acts' := Extend(ss', acts', TakeTerm(p));
    ss', acts' := Extend(ss', acts', Publish(p));
  }

  const CAMPAIGN := [Lock(0), TakeTerm(0), Publish(0)]

  /** One controller campaigns and leads under term 1. */
  function Campaigned(): seq<State> {
    [State(None, 0, map[]), State(Some(0), 0, map[0 := Locked]), State(Some(0), 1, map[0 := Took(1)]), State(Some(0), 1, map[0 := Leading(1)])]
  }

  lemma CampaignedIsRun()
    ensures IsRun(Campaigned(), CAMPAIGN)
  {
    var ss := Campaigned();
    assert Enabled(ss[0], Lock(0)) && Do(ss[0], Lock(0)) == ss[1];
    assert Enabled(ss[1], TakeTerm(0)) && Do(ss[1], TakeTerm(0)) == ss[2];
    assert Enabled(ss[2], Publish(0)) && Do(ss[2], Publish(0)) == ss[3];
  }

  /** Its pass begins then, and it may stop leading right after. */
  function LoneLeader(stops: bool): Latch {
    if stops then Latch(Campaigned() + [State(None, 1, map[0 := Waiting])], CAMPAIGN + [Stop(0)], 3, 0, 1)
    else Latch(Campaigned(), CAMPAIGN, 3, 0, 1)
  }

  lemma LoneLeaderLatched(stops: bool)
    ensures Latched(LoneLeader(stops))
  {
    CampaignedIsRun();
    var ss, acts := Campaigned(), CAMPAIGN;
    assert Do(ss[3], Stop(0)) == State(None, 1, map[0 := Waiting]);
    if stops {
      Extends(ss, acts, Stop(0));
    }
  }

  lemma Extends(ss: seq<State>, acts: seq<Action>, a: Action)
    requires IsRun(ss, acts) && Enabled(ss[|acts|], a)
    ensures IsRun(ss + [Do(ss[|acts|], a)], acts + [a])
  {
  }

  lemma LoneLeaderSees(stops: bool, i: nat)
    ensures Seen(LoneLeader(stops))(i) == Moment(1, if stops && i > 0 then None else Some(1))
  {
  }
}
