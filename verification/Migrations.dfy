/**
 One migration row and the applier passes that drive it, under leadership terms.

 A controller takes a term when it wins the leader lock, latches it at the start of
 a pass, reads the row, and stamps every later write with it; the catalog refuses a
 stamp that is not the current term.  Passes of different leaders overlap: a pass
 that lost its leadership can still be holding a statement it is about to send.
 Any save can fail before or after it took effect, and any pass can die anywhere.
 */
module Migrations {
  type PassId = nat
  type ShardSet = string

  /** A per_shard entry: a shard by its id, or the catalog group. */
  datatype Key = Shard(id: int) | CatalogKey

  datatype EntryState = Pending | Running | Retrying | Applied | Skipped | Failed

  datatype Progress = Queued | InProgress | Complete | GaveUp

  datatype Row = Row(progress: Progress, set_: ShardSet, per: map<Key, EntryState>)

  /** Where a pass is with this migration: it has latched its term, read the row, is
      between entries, has recorded an entry as running, or has had an attempt end. */
  datatype Stage = Latched | Loaded | Driving | Sending(key: Key) | Attempted(key: Key)

  /** `m` is the pass's own copy of the row, `gaveUp` the entries it found it could not
      go on retrying because the process no longer leads. */
  datatype Pass = Pass(term: nat, m: Row, stage: Stage, gaveUp: set<Key>)

  /** `mirrors` counts the commits of the migration's desired-state statements, `sent`
      records every (shard set, entry) its statement was ever sent to; `stamped`
      says that no pass has run under the term 0, whose writes are not guarded. */
  datatype State = State(row: Row, term: nat, passes: map<PassId, Pass>, mirrors: nat,
                         sent: set<(ShardSet, Key)>, stamped: bool)

  /** How a save ended for the pass that made it: a lost reply is an error although
      the row was written. */
  datatype Saved = Written | ReplyLost | NotWritten

  /** How a driven migration ended: done, with a failed entry, or without any entry
      that applied, which fails them all. */
  datatype Ending = Done | SomeFailed | NothingApplied

  datatype Action =
    | TakeTerm
    | StartPass(p: PassId, term: nat)
    | Load(p: PassId)
    | FailUnstarted(p: PassId, serving: ShardSet, how: Saved)
    | FailStraddled(p: PassId, serving: ShardSet, how: Saved)
    | Plan(p: PassId, serving: ShardSet, targets: set<Key>, how: Saved)
    | ResumeRow(p: PassId, serving: ShardSet)
    | MarkRunning(p: PassId, key: Key, how: Saved)
    | Send(p: PassId)
    | NotSent(p: PassId)
    | Settle(p: PassId, entry: EntryState, how: Saved)
    | Abandon(p: PassId, key: Key)
    | FailCatalogEntry(p: PassId)
    | Finish(p: PassId, ending: Ending, how: Saved)
    | EndPass(p: PassId)

  /** Any entry driven past pending makes the progress unreadable against another set. */
  predicate Touched(per: map<Key, EntryState>) {
    exists k | k in per :: per[k] != Pending
  }

  /** Queued, or planned against another set than the serving one and not begun. */
  predicate Unstarted(m: Row, serving: ShardSet) {
    m.progress == Queued || (m.set_ != serving && !Touched(m.per))
  }

  predicate Final(e: EntryState) {
    e == Applied || e == Skipped || e == Failed
  }

  /** Some entry has the state e. */
  predicate Has(per: map<Key, EntryState>, e: EntryState) {
    exists k | k in per :: per[k] == e
  }

  predicate AnyFailed(per: map<Key, EntryState>) {
    Has(per, Failed)
  }

  /** The verdict over the entries of a pass that was not stopped. */
  function Verdict(per: map<Key, EntryState>): Ending {
    if AnyFailed(per) then SomeFailed
    else if per != map[] && !Has(per, Applied) then NothingApplied
    else Done
  }

  /** Every entry has come to an end, or the pass has given it up. */
  predicate AllTurnsOver(x: Pass) {
    forall k | k in x.m.per :: Final(x.m.per[k]) || k in x.gaveUp
  }

  predicate At(s: State, p: PassId, stage: Stage) {
    p in s.passes && s.passes[p].stage == stage
  }

  predicate Enabled(s: State, a: Action) {
    match a
    case TakeTerm => true
    case StartPass(p, t) =>
      // A process makes one pass at a time, under a term it was given.
      p !in s.passes && t <= s.term && (t != 0 ==> forall q | q in s.passes :: s.passes[q].term != t)
    case Load(p) => At(s, p, Latched) && (s.row.progress == Queued || s.row.progress == InProgress)
    case FailUnstarted(p, serving, how) =>
      // On a placement that moved, or a database that is gone; also about to be replanned.
      At(s, p, Loaded) && Unstarted(s.passes[p].m, serving)
    case FailStraddled(p, serving, how) =>
      At(s, p, Loaded) && s.passes[p].m.progress == InProgress && s.passes[p].m.set_ != serving && Touched(s.passes[p].m.per)
    case Plan(p, serving, targets, how) =>
      // A plan without a target is refused.
      At(s, p, Loaded) && Unstarted(s.passes[p].m, serving) && targets != {}
    case ResumeRow(p, serving) => At(s, p, Loaded) && s.passes[p].m.progress == InProgress && s.passes[p].m.set_ == serving
    case MarkRunning(p, k, how) =>
      // An applied entry is run again only for the next step of a multistep migration; the
      // catalog's entry not once a shard has failed.
      At(s, p, Driving) && k in s.passes[p].m.per && s.passes[p].m.per[k] != Skipped && s.passes[p].m.per[k] != Failed &&
      (k == CatalogKey ==> !AnyFailed(s.passes[p].m.per))
    case Send(p) => p in s.passes && s.passes[p].stage.Sending?
    case NotSent(p) => p in s.passes && s.passes[p].stage.Sending?
    case Settle(p, e, how) => p in s.passes && s.passes[p].stage.Attempted? && (Final(e) || e == Retrying)
    case FailCatalogEntry(p) =>
      At(s, p, Driving) && CatalogKey in s.passes[p].m.per && !Final(s.passes[p].m.per[CatalogKey]) && AnyFailed(s.passes[p].m.per)
    case Abandon(p, k) => At(s, p, Driving) && k in s.passes[p].m.per && s.passes[p].m.per[k] == Retrying
    case Finish(p, ending, how) =>
      // After every entry's turn.
      At(s, p, Driving) && ending == Verdict(s.passes[p].m.per) && AllTurnsOver(s.passes[p])
    case EndPass(p) => p in s.passes
  }

  /** The guard of every save: an unstamped write, or one stamped with the term now
      recorded. */
  predicate Admitted(s: State, p: PassId)
    requires p in s.passes
  {
    s.passes[p].term == 0 || s.passes[p].term == s.term
  }

  function WithPass(s: State, p: PassId, x: Pass): State {
    s.(passes := s.passes[p := x])
  }

  function WithoutPass(s: State, p: PassId): State {
    s.(passes := s.passes - {p})
  }

  /** The row after a save of m. */
  function Save(s: State, p: PassId, m: Row, how: Saved): State
    requires p in s.passes
  {
    if Admitted(s, p) && !how.NotWritten? then s.(row := m) else s
  }

  function AllPending(targets: set<Key>): map<Key, EntryState> {
    map k | k in targets :: Pending
  }

  function Ended(m: Row, ending: Ending): Row {
    match ending
    case Done => m.(progress := Complete)
    case SomeFailed => m.(progress := GaveUp)
    case NothingApplied => m.(progress := GaveUp, per := map k | k in m.per :: Failed)
  }

  /** Whether the pass is told that its save was written. */
  predicate Heard(s: State, p: PassId, how: Saved)
    requires p in s.passes
  {
    Admitted(s, p) && how.Written?
  }

  function Do(s: State, a: Action): State
    requires Enabled(s, a)
  {
    match a
    case TakeTerm => s.(term := s.term + 1)
    case StartPass(p, t) => WithPass(s, p, Pass(t, s.row, Latched, {})).(stamped := s.stamped && t != 0)
    case Load(p) => WithPass(s, p, s.passes[p].(m := s.row, stage := Loaded))
    case FailUnstarted(p, serving, how) => WithoutPass(Save(s, p, s.passes[p].m.(progress := GaveUp), how), p)
    case FailStraddled(p, serving, how) => WithoutPass(Save(s, p, s.passes[p].m.(progress := GaveUp), how), p)
    case Plan(p, serving, targets, how) =>
      var m := Row(InProgress, serving, AllPending(targets));
      var s' := Save(s, p, m, how);
      if Heard(s, p, how) then WithPass(s', p, s.passes[p].(m := m, stage := Driving)) else WithoutPass(s', p)
    case ResumeRow(p, serving) => WithPass(s, p, s.passes[p].(stage := Driving))
    case MarkRunning(p, k, how) =>
      // The statement is sent only once the catalog has said the entry is running.  A
      // refused stamp leaves the entry as it was found; any other error backs off.
      var m := s.passes[p].m.(per := s.passes[p].m.per[k := Running]);
      var s' := Save(s, p, m, how);
      if Heard(s, p, how) then WithPass(s', p, s.passes[p].(m := m, stage := Sending(k)))
      else if !Admitted(s, p) then s'
      else WithPass(s', p, s.passes[p].(m := m, stage := Attempted(k)))
    case Send(p) =>
      var x := s.passes[p];
      WithPass(s.(sent := s.sent + {(x.m.set_, x.stage.key)}), p, x.(stage := Attempted(x.stage.key)))
    case NotSent(p) => WithPass(s, p, s.passes[p].(stage := Attempted(s.passes[p].stage.key)))
    case Settle(p, e, how) =>
      var x := s.passes[p].(m := s.passes[p].m.(per := s.passes[p].m.per[s.passes[p].stage.key := e]), stage := Driving);
      WithPass(Save(s, p, x.m, how), p, x)
    case Abandon(p, k) => WithPass(s, p, s.passes[p].(gaveUp := s.passes[p].gaveUp + {k}))
    case FailCatalogEntry(p) =>
      WithPass(s, p, s.passes[p].(m := s.passes[p].m.(per := s.passes[p].m.per[CatalogKey := Failed])))
    case Finish(p, ending, how) =>
      // The desired-state statements and the completed row commit in one transaction.
      var s' := Save(s, p, Ended(s.passes[p].m, ending), how);
      WithoutPass(if ending.Done? && Admitted(s, p) && !how.NotWritten? then s'.(mirrors := s.mirrors + 1) else s', p)
    case EndPass(p) => WithoutPass(s, p)
  }

  predicate Init(s: State) {
    s.row.progress == Queued && s.row.per == map[] && s.passes == map[] && s.mirrors == 0 && s.sent == {} && s.stamped
  }

  predicate StepAt(ss: seq<State>, acts: seq<Action>, i: nat)
    requires |ss| == |acts| + 1 && i < |acts|
  {
    Enabled(ss[i], acts[i]) && ss[i+1] == Do(ss[i], acts[i])
  }

  ghost predicate IsRun(ss: seq<State>, acts: seq<Action>) {
    && |ss| == |acts| + 1 && Init(ss[0])
    && forall i: nat | i < |acts| :: StepAt(ss, acts, i)
  }

  // ---------------------------------------------------------- invariants

  /** Row m records that its statement may have reached entry k of the set. */
  predicate Records(m: Row, target: (ShardSet, Key)) {
    m.set_ == target.0 && target.1 in m.per && m.per[target.1] != Pending
  }

  /** Everything the statement was sent to, and everything a pass has announced it
      is about to send to, is on record in m. */
  ghost predicate AllOnRecord(s: State, m: Row) {
    && (forall t | t in s.sent :: Records(m, t))
    && (forall p | p in s.passes && s.passes[p].stage.Sending? :: Records(m, (s.passes[p].m.set_, s.passes[p].stage.key)))
  }

  /** A pass under the current term that has read the row: nobody else can write it. */
  predicate InForce(s: State, p: PassId) {
    p in s.passes && s.passes[p].term == s.term && s.passes[p].stage != Latched
  }

  ghost predicate PassOk(s: State, p: PassId)
    requires p in s.passes
  {
    var x := s.passes[p];
    && 0 < x.term <= s.term
    && (forall q | q in s.passes && s.passes[q].term == x.term :: q == p)
    && (x.stage != Latched && x.stage != Loaded ==> x.m.progress == InProgress)
    && (x.stage.Sending? || x.stage.Attempted? ==> x.stage.key in x.m.per && x.m.per[x.stage.key] != Pending)
    && (InForce(s, p) ==>
          && AllOnRecord(s, x.m)
          && s.row.progress != Complete && s.row.progress != GaveUp
          && (x.m.progress == Queued ==> x.m.per == map[])
          && (x.m.progress == Queued || x.m.progress == InProgress))
  }

  ghost predicate Inv(s: State) {
    s.stamped ==>
      && AllOnRecord(s, s.row)
      && (s.row.progress == Queued ==> s.row.per == map[])
      && s.mirrors == (if s.row.progress == Complete then 1 else 0)
      && forall p | p in s.passes :: PassOk(s, p)
  }

  // ------------------------------------------------------- preservation

  /** The pass in force writes a row that keeps everything on record, and leaves. */
  lemma WriteAndLeave(s: State, p: PassId, m: Row, mirrors: nat)
    requires Inv(s) && s.stamped && InForce(s, p) && AllOnRecord(s, m) && m.progress != Queued
    requires mirrors == (if m.progress == Complete then 1 else 0)
    ensures Inv(s.(row := m, mirrors := mirrors, passes := s.passes - {p}))
  {
    var s' := s.(row := m, mirrors := mirrors, passes := s.passes - {p});
    forall q | q in s'.passes ensures PassOk(s', q) {
      assert PassOk(s, q) && PassOk(s, p);
    }
  }

  /** The pass in force writes a row that keeps everything on record, and goes on
      with that row as its copy. */
  lemma WriteAndGoOn(s: State, p: PassId, m: Row, stage: Stage)
    requires Inv(s) && s.stamped && InForce(s, p) && AllOnRecord(s, m) && m.progress == InProgress
    requires stage.Driving? || ((stage.Sending? || stage.Attempted?) && stage.key in m.per && m.per[stage.key] != Pending)
    ensures Inv(s.(row := m, passes := s.passes[p := s.passes[p].(m := m, stage := stage)]))
  {
    var s' := s.(row := m, passes := s.passes[p := s.passes[p].(m := m, stage := stage)]);
    assert PassOk(s, p);
    forall q | q in s'.passes ensures PassOk(s', q) {
      assert PassOk(s, q);
    }
  }

  /** A pass that writes nothing and leaves. */
  lemma Leave(s: State, p: PassId)
    requires Inv(s) && p in s.passes
    ensures Inv(WithoutPass(s, p))
  {
    var s' := WithoutPass(s, p);
    if s.stamped {
      forall q | q in s'.passes ensures PassOk(s', q) {
        assert PassOk(s, q);
      }
    }
  }

  /** A pass that writes nothing and changes its own copy so that nothing is
      forgotten. */
  lemma StepAside(s: State, p: PassId, x: Pass)
    requires Inv(s) && s.stamped && p in s.passes && x.term == s.passes[p].term && s.passes[p].stage != Latched
    requires (x.stage.Driving? || x.stage.Attempted?) && x.m.progress == InProgress
    requires x.stage.Attempted? ==> x.stage.key in x.m.per && x.m.per[x.stage.key] != Pending
    requires InForce(s, p) ==> AllOnRecord(s, x.m)
    ensures Inv(WithPass(s, p, x))
  {
    var s' := WithPass(s, p, x);
    assert PassOk(s, p);
    forall q | q in s'.passes ensures PassOk(s', q) {
      assert PassOk(s, q);
    }
  }

  /** Recording more about one entry forgets nothing. */
  lemma RecordsMore(s: State, m: Row, k: Key, e: EntryState)
    requires AllOnRecord(s, m) && e != Pending
    ensures AllOnRecord(s, m.(per := m.per[k := e]))
  {
    var m' := m.(per := m.per[k := e]);
    assert forall t | Records(m, t) :: Records(m', t);
  }

  /** An untouched row records nothing, so nothing was sent or is about to be. */
  lemma UntouchedMeansUnsent(s: State, m: Row, m': Row)
    requires AllOnRecord(s, m) && !Touched(m.per)
    ensures AllOnRecord(s, m')
  {
    assert forall t :: !Records(m, t);
  }

  lemma TermStep(s: State)
    requires Inv(s)
    ensures Inv(Do(s, TakeTerm))
  {
    var s' := Do(s, TakeTerm);
    if s.stamped {
      forall q | q in s'.passes ensures PassOk(s', q) {
        assert PassOk(s, q);
      }
    }
  }

  lemma StartStep(s: State, p: PassId, t: nat)
    requires Inv(s) && Enabled(s, StartPass(p, t))
    ensures Inv(Do(s, StartPass(p, t)))
  {
    var s' := Do(s, StartPass(p, t));
    if s'.stamped {
      forall q | q in s'.passes ensures PassOk(s', q) {
        if q != p { assert PassOk(s, q); }
      }
    }
  }

  lemma LoadStep(s: State, p: PassId)
    requires Inv(s) && Enabled(s, Load(p))
    ensures Inv(Do(s, Load(p)))
  {
    var s' := Do(s, Load(p));
    if s.stamped {
      assert PassOk(s, p);
      forall q | q in s'.passes ensures PassOk(s', q) {
        assert PassOk(s, q);
      }
    }
  }

  lemma SaveAndLeave(s: State, p: PassId, m: Row, how: Saved)
    requires Inv(s) && s.stamped && p in s.passes && s.passes[p].stage != Latched
    requires InForce(s, p) ==> AllOnRecord(s, m)
    requires m.progress == GaveUp
    ensures Inv(WithoutPass(Save(s, p, m, how), p))
  {
    assert PassOk(s, p);
    if Admitted(s, p) && !how.NotWritten? {
      WriteAndLeave(s, p, m, 0);
    } else {
      Leave(s, p);
    }
  }

  lemma FailStep(s: State, a: Action)
    requires Inv(s) && s.stamped && Enabled(s, a) && (a.FailUnstarted? || a.FailStraddled?)
    ensures Inv(Do(s, a))
  {
    var m := s.passes[a.p].m.(progress := GaveUp);
    assert PassOk(s, a.p);
    assert forall t | Records(s.passes[a.p].m, t) :: Records(m, t);
    SaveAndLeave(s, a.p, m, a.how);
  }

  lemma PlanStep(s: State, p: PassId, serving: ShardSet, targets: set<Key>, how: Saved)
    requires Inv(s) && s.stamped && Enabled(s, Plan(p, serving, targets, how))
    ensures Inv(Do(s, Plan(p, serving, targets, how)))
  {
    var m := Row(InProgress, serving, AllPending(targets));
    assert PassOk(s, p);
    if Admitted(s, p) {
      UntouchedMeansUnsent(s, s.passes[p].m, m);
      if how.Written? {
        WriteAndGoOn(s, p, m, Driving);
      } else if how.ReplyLost? {
        WriteAndLeave(s, p, m, 0);
      } else {
        Leave(s, p);
      }
    } else {
      Leave(s, p);
    }
  }

  lemma MarkStep(s: State, p: PassId, k: Key, how: Saved)
    requires Inv(s) && s.stamped && Enabled(s, MarkRunning(p, k, how))
    ensures Inv(Do(s, MarkRunning(p, k, how)))
  {
    var x := s.passes[p];
    var m := x.m.(per := x.m.per[k := Running]);
    assert PassOk(s, p);
    if Admitted(s, p) {
      RecordsMore(s, x.m, k, Running);
      if how.Written? {
        WriteAndGoOn(s, p, m, Sending(k));
      } else if how.ReplyLost? {
        WriteAndGoOn(s, p, m, Attempted(k));
      } else {
        StepAside(s, p, x.(m := m, stage := Attempted(k)));
      }
    }
  }

  lemma SendStep(s: State, a: Action)
    requires Inv(s) && s.stamped && Enabled(s, a) && (a.Send? || a.NotSent?)
    ensures Inv(Do(s, a))
  {
    var p, s' := a.p, Do(s, a);
    assert PassOk(s, p);
    forall q | q in s'.passes ensures PassOk(s', q) {
      assert PassOk(s, q);
    }
  }

  lemma SettleStep(s: State, p: PassId, e: EntryState, how: Saved)
    requires Inv(s) && s.stamped && Enabled(s, Settle(p, e, how))
    ensures Inv(Do(s, Settle(p, e, how)))
  {
    var x := s.passes[p];
    var m := x.m.(per := x.m.per[x.stage.key := e]);
    assert PassOk(s, p);
    if InForce(s, p) {
      RecordsMore(s, x.m, x.stage.key, e);
    }
    if Admitted(s, p) && !how.NotWritten? {
      WriteAndGoOn(s, p, m, Driving);
    } else {
      StepAside(s, p, x.(m := m, stage := Driving));
    }
  }

  lemma LocalStep(s: State, a: Action)
    requires Inv(s) && s.stamped && Enabled(s, a) && (a.ResumeRow? || a.Abandon? || a.FailCatalogEntry?)
    ensures Inv(Do(s, a))
  {
    var x := s.passes[a.p];
    assert PassOk(s, a.p);
    if a.ResumeRow? {
      StepAside(s, a.p, x.(stage := Driving));
    } else if a.Abandon? {
      StepAside(s, a.p, x.(gaveUp := x.gaveUp + {a.key}));
    } else {
      if InForce(s, a.p) {
        RecordsMore(s, x.m, CatalogKey, Failed);
      }
      StepAside(s, a.p, x.(m := x.m.(per := x.m.per[CatalogKey := Failed])));
    }
  }

  lemma FinishStep(s: State, p: PassId, ending: Ending, how: Saved)
    requires Inv(s) && s.stamped && Enabled(s, Finish(p, ending, how))
    ensures Inv(Do(s, Finish(p, ending, how)))
  {
    var x := s.passes[p];
    var m := Ended(x.m, ending);
    assert PassOk(s, p);
    assert forall t | Records(x.m, t) :: Records(m, t);
    if ending.Done? && Admitted(s, p) && !how.NotWritten? {
      WriteAndLeave(s, p, m, 1);
    } else if ending.Done? {
      Leave(s, p);
    } else {
      SaveAndLeave(s, p, m, how);
    }
  }

  lemma StepKeepsInv(s: State, a: Action)
    requires Inv(s) && Enabled(s, a)
    ensures Inv(Do(s, a))
  {
    if a.TakeTerm? {
      TermStep(s);
    } else if a.StartPass? {
      StartStep(s, a.p, a.term);
    } else if !s.stamped {
    } else {
      match a
      case Load(p) => LoadStep(s, p);
      case Plan(p, serving, targets, how) => PlanStep(s, p, serving, targets, how);
      case MarkRunning(p, k, how) => MarkStep(s, p, k, how);
      case Settle(p, e, how) => SettleStep(s, p, e, how);
      case Finish(p, ending, how) => FinishStep(s, p, ending, how);
      case EndPass(p) => Leave(s, p);
      case FailUnstarted(_, _, _) => FailStep(s, a);
      case FailStraddled(_, _, _) => FailStep(s, a);
      case Send(_) => SendStep(s, a);
      case NotSent(_) => SendStep(s, a);
      case ResumeRow(_, _) => LocalStep(s, a);
      case FailCatalogEntry(_) => LocalStep(s, a);
      case Abandon(_, _) => LocalStep(s, a);
    }
  }

  lemma {:induction false} RunKeepsInv(ss: seq<State>, acts: seq<Action>, i: nat)
    requires IsRun(ss, acts) && i < |ss|
    ensures Inv(ss[i])
  {
    if i > 0 {
      RunKeepsInv(ss, acts, i - 1);
      assert StepAt(ss, acts, i - 1);
      StepKeepsInv(ss[i-1], acts[i-1]);
    }
  }

  // ------------------------------------------------------------ theorems

  /** An entry the stored row says is pending was never sent its statement, in any
      run, under whatever set the row is planned against now: after a replan nothing
      at all had been sent.  So reading pending as never started is right. */
  lemma PendingWasNeverSent(ss: seq<State>, acts: seq<Action>, i: nat, k: Key)
    requires IsRun(ss, acts) && i < |ss| && ss[i].stamped
    requires k in ss[i].row.per && ss[i].row.per[k] == Pending
    ensures forall set_ :: (set_, k) !in ss[i].sent
    ensures !Touched(ss[i].row.per) ==> ss[i].sent == {}
  {
    RunKeepsInv(ss, acts, i);
    forall t | t in ss[i].sent ensures Records(ss[i].row, t) {}
  }

  /** Every statement ever sent went to the set the stored row is pinned to. */
  lemma SentToThePinnedSet(ss: seq<State>, acts: seq<Action>, i: nat, t: (ShardSet, Key))
    requires IsRun(ss, acts) && i < |ss| && ss[i].stamped && t in ss[i].sent
    ensures t.0 == ss[i].row.set_ && t.1 in ss[i].row.per && ss[i].row.per[t.1] != Pending
  {
    RunKeepsInv(ss, acts, i);
    assert Records(ss[i].row, t);
  }

  /** The desired-state statements are committed exactly as often as the row is
      complete: once when it is, never otherwise. */
  lemma MirroredExactlyWhenComplete(ss: seq<State>, acts: seq<Action>, i: nat)
    requires IsRun(ss, acts) && i < |ss| && ss[i].stamped
    ensures ss[i].mirrors == (if ss[i].row.progress == Complete then 1 else 0)
  {
    RunKeepsInv(ss, acts, i);
  }

  lemma FinalStep(s: State, a: Action)
    requires Inv(s) && Enabled(s, a) && Do(s, a).stamped
    requires s.row.progress == Complete || s.row.progress == GaveUp
    ensures Do(s, a).row == s.row
  {
    if !a.TakeTerm? && !a.StartPass? {
      assert PassOk(s, a.p);
    }
  }

  lemma FinalStepOfRun(ss: seq<State>, acts: seq<Action>, i: nat)
    requires IsRun(ss, acts) && i < |acts| && ss[i+1].stamped
    requires ss[i].row.progress == Complete || ss[i].row.progress == GaveUp
    ensures ss[i+1].row == ss[i].row
  {
    RunKeepsInv(ss, acts, i);
    assert StepAt(ss, acts, i);
    FinalStep(ss[i], acts[i]);
  }

  lemma {:induction false} StampedBefore(ss: seq<State>, acts: seq<Action>, i: nat, j: nat)
    requires IsRun(ss, acts) && i <= j < |ss| && ss[j].stamped
    ensures ss[i].stamped
  {
    if i < j {
      assert StepAt(ss, acts, j - 1);
      StampedBefore(ss, acts, i, j - 1);
    }
  }

  /** A row once final is never written again. */
  lemma {:induction false} FinalForGood(ss: seq<State>, acts: seq<Action>, i: nat, j: nat)
    requires IsRun(ss, acts) && i <= j < |ss| && ss[j].stamped
    requires ss[i].row.progress == Complete || ss[i].row.progress == GaveUp
    ensures ss[j].row == ss[i].row
  {
    if i < j {
      StampedBefore(ss, acts, j - 1, j);
      FinalForGood(ss, acts, i, j - 1);
      FinalStepOfRun(ss, acts, j - 1);
    }
  }

  lemma {:induction false} TermsGrow(ss: seq<State>, acts: seq<Action>, i: nat, j: nat)
    requires IsRun(ss, acts) && i <= j < |ss|
    ensures ss[i].term <= ss[j].term
  {
    if i < j {
      TermsGrow(ss, acts, i, j - 1);
      assert StepAt(ss, acts, j - 1);
    }
  }

  /** Once a later term has been taken, nothing a pass of an earlier term does
      changes the row or commits its statements. */
  lemma EarlierTermWritesNothing(ss: seq<State>, acts: seq<Action>, i: nat, j: nat, p: PassId)
    requires IsRun(ss, acts) && i <= j < |acts|
    requires !acts[j].TakeTerm? && !acts[j].StartPass? && acts[j].p == p
    requires p in ss[j].passes && 0 < ss[j].passes[p].term < ss[i].term
    ensures ss[j+1].row == ss[j].row && ss[j+1].mirrors == ss[j].mirrors
  {
    TermsGrow(ss, acts, i, j);
    assert StepAt(ss, acts, j);
  }

  // ------------------------------------------------- what complete means

  /** A row that is being driven or is complete has entries; a complete one has none that
      failed and one that applied, and none unfinished if no pass gave one up. */
  predicate RowOk(m: Row, clean: bool) {
    && (m.progress == InProgress || m.progress == Complete ==> m.per != map[])
    && (m.progress == Complete ==> Verdict(m.per) == Done && (clean ==> forall k | k in m.per :: Final(m.per[k])))
  }

  predicate PassFits(x: Pass, clean: bool) {
    && (x.stage != Latched ==> RowOk(x.m, clean))
    && (x.stage != Latched && x.stage != Loaded ==> x.m.progress == InProgress)
    && (clean ==> x.gaveUp == {})
  }

  ghost predicate EntryInv(s: State, clean: bool) {
    RowOk(s.row, clean) && forall p | p in s.passes :: PassFits(s.passes[p], clean)
  }

  lemma StepKeepsRowOk(s: State, a: Action, clean: bool)
    requires EntryInv(s, clean) && Enabled(s, a) && (clean ==> !a.Abandon?)
    ensures RowOk(Do(s, a).row, clean)
  {
    if !a.TakeTerm? && !a.StartPass? {
      assert PassFits(s.passes[a.p], clean);
      if a.Plan? {
        PlannedIsNotEmpty(a.targets);
      }
    }
  }

  lemma PlannedIsNotEmpty(targets: set<Key>)
    requires targets != {}
    ensures AllPending(targets) != map[]
  {
    var k :| k in targets;
    assert k in AllPending(targets);
  }

  lemma StepKeepsPass(s: State, a: Action, clean: bool, q: PassId)
    requires EntryInv(s, clean) && Enabled(s, a) && (clean ==> !a.Abandon?) && q in Do(s, a).passes
    ensures PassFits(Do(s, a).passes[q], clean)
  {
    if q in s.passes {
      assert PassFits(s.passes[q], clean);
    }
    if a.TakeTerm? || q != a.p {
      OthersStay(s, a, q);
    } else if a.Plan? {
      PlannedIsNotEmpty(a.targets);
    }
  }

  lemma OthersStay(s: State, a: Action, q: PassId)
    requires Enabled(s, a) && q in Do(s, a).passes && (a.TakeTerm? || q != a.p)
    ensures q in s.passes && Do(s, a).passes[q] == s.passes[q]
  {
  }

  lemma EntryStepOfRun(ss: seq<State>, acts: seq<Action>, i: nat, clean: bool)
    requires IsRun(ss, acts) && i < |acts| && EntryInv(ss[i], clean) && (clean ==> !acts[i].Abandon?)
    ensures EntryInv(ss[i+1], clean)
  {
    var s' := ss[i+1];
    assert StepAt(ss, acts, i);
    StepKeepsRowOk(ss[i], acts[i], clean);
    forall q | q in s'.passes ensures PassFits(s'.passes[q], clean) {
      StepKeepsPass(ss[i], acts[i], clean, q);
    }
  }

  lemma {:induction false} RunKeepsEntries(ss: seq<State>, acts: seq<Action>, i: nat, clean: bool)
    requires IsRun(ss, acts) && i < |ss| && (clean ==> forall j | 0 <= j < i :: !acts[j].Abandon?)
    ensures EntryInv(ss[i], clean)
  {
    if i > 0 {
      RunKeepsEntries(ss, acts, i - 1, clean);
      EntryStepOfRun(ss, acts, i - 1, clean);
    }
  }

  /** In every run, over any crashes, lost replies, replans and leader changes, a row
      recorded complete has no entry that failed and one that applied; and every entry
      applied or skipped, unless some pass gave an entry up for want of the leadership. */
  lemma CompleteMeansApplied(ss: seq<State>, acts: seq<Action>, i: nat)
    requires IsRun(ss, acts) && i < |ss| && ss[i].row.progress == Complete
    ensures !Has(ss[i].row.per, Failed) && Has(ss[i].row.per, Applied)
    ensures (forall j | 0 <= j < i :: !acts[j].Abandon?) ==>
      forall k | k in ss[i].row.per :: ss[i].row.per[k] == Applied || ss[i].row.per[k] == Skipped
  {
    RunKeepsEntries(ss, acts, i, false);
    if forall j | 0 <= j < i :: !acts[j].Abandon? {
      RunKeepsEntries(ss, acts, i, true);
      forall k | k in ss[i].row.per ensures ss[i].row.per[k] != Failed {
        assert !Has(ss[i].row.per, Failed);
      }
    }
  }

  /** A pass that ends its migration otherwise than done, by a save that is admitted and
      written, leaves it given up.  With a failed or an applied entry the row says of each
      entry what the pass knew of it; with neither, every entry is failed. */
  lemma GivenUpSaysWhatHappened(ss: seq<State>, acts: seq<Action>, i: nat)
    requires IsRun(ss, acts) && i < |acts| && StepAt(ss, acts, i) && acts[i].Finish? && acts[i].ending != Done
    requires Admitted(ss[i], acts[i].p) && acts[i].how != NotWritten
    ensures var per, row := ss[i].passes[acts[i].p].m.per, ss[i+1].row;
      && row.progress == GaveUp && row.per.Keys == per.Keys && ss[i+1].mirrors == ss[i].mirrors
      && row.set_ == ss[i].passes[acts[i].p].m.set_
      && (Has(per, Failed) || Has(per, Applied) ==> row.per == per)
      && (!Has(per, Failed) && !Has(per, Applied) ==> forall k | k in row.per :: row.per[k] == Failed)
  {
    assert StepAt(ss, acts, i);
  }

  /** One that ends it done leaves it complete with every entry as the pass knew it. */
  lemma CompletedSaysWhatHappened(ss: seq<State>, acts: seq<Action>, i: nat)
    requires IsRun(ss, acts) && i < |acts| && StepAt(ss, acts, i) && acts[i].Finish? && acts[i].ending == Done
    requires Admitted(ss[i], acts[i].p) && acts[i].how != NotWritten
    ensures ss[i+1].row == ss[i].passes[acts[i].p].m.(progress := Complete) && ss[i+1].mirrors == ss[i].mirrors + 1
  {
    assert StepAt(ss, acts, i);
  }

  // ------------------------------------------------ where a statement goes

  /** The pass has taken up the row's entries. */
  predicate UnderWay(s: State, p: PassId) {
    p in s.passes && s.passes[p].stage != Latched && s.passes[p].stage != Loaded
  }

  lemma UnderWayStep(s: State, a: Action, p: PassId)
    requires Enabled(s, a) && UnderWay(Do(s, a), p)
    ensures || (UnderWay(s, p) && Do(s, a).passes[p].m.set_ == s.passes[p].m.set_)
            || ((a.Plan? || a.ResumeRow?) && a.p == p && Do(s, a).passes[p].m.set_ == a.serving)
  {
  }

  /** A pass sends statements only to the set that it found serving when it planned the
      migration, or took it up again. */
  lemma {:induction false} SentToTheServingSet(ss: seq<State>, acts: seq<Action>, i: nat, p: PassId) returns (j: nat)
    requires IsRun(ss, acts) && i < |ss| && UnderWay(ss[i], p)
    ensures j < i && (acts[j].Plan? || acts[j].ResumeRow?) && acts[j].p == p && ss[i].passes[p].m.set_ == acts[j].serving
  {
    assert i > 0;
    assert StepAt(ss, acts, i - 1);
    UnderWayStep(ss[i-1], acts[i-1], p);
    if UnderWay(ss[i-1], p) && ss[i].passes[p].m.set_ == ss[i-1].passes[p].m.set_ {
      j := SentToTheServingSet(ss, acts, i - 1, p);
    } else {
      j := i - 1;
    }
  }

  /** The pass is about to send the catalog's own statement. */
  predicate AtTheCatalog(s: State, p: PassId) {
    At(s, p, Sending(CatalogKey))
  }

  lemma CatalogStep(s: State, a: Action, p: PassId)
    requires Enabled(s, a) && AtTheCatalog(Do(s, a), p)
    ensures AtTheCatalog(s, p) ==> Do(s, a).passes[p].m == s.passes[p].m
    ensures !AtTheCatalog(s, p) ==> !AnyFailed(Do(s, a).passes[p].m.per)
  {
    if !AtTheCatalog(s, p) {
      assert a.MarkRunning? && a.key == CatalogKey && a.p == p;
      forall k | k in Do(s, a).passes[p].m.per ensures Do(s, a).passes[p].m.per[k] != Failed {
        assert k in s.passes[p].m.per && !Has(s.passes[p].m.per, Failed);
      }
    }
  }

  /** The catalog's own statement is sent only by a pass that knows of no failed shard. */
  lemma {:induction false} CatalogSentWithNoneFailed(ss: seq<State>, acts: seq<Action>, i: nat, p: PassId)
    requires IsRun(ss, acts) && i < |ss| && AtTheCatalog(ss[i], p)
    ensures !AnyFailed(ss[i].passes[p].m.per)
  {
    if i > 0 {
      assert StepAt(ss, acts, i - 1);
      CatalogStep(ss[i-1], acts[i-1], p);
      if AtTheCatalog(ss[i-1], p) { CatalogSentWithNoneFailed(ss, acts, i - 1, p); }
    }
  }

  /** A pass refused for its term does nothing to the entry it was about to send. */
  lemma RefusedMarkChangesNothing(s: State, p: PassId, k: Key, how: Saved)
    requires Enabled(s, MarkRunning(p, k, how)) && !Admitted(s, p)
    ensures Do(s, MarkRunning(p, k, how)) == s
  {
  }

  // ----------------------------------------------------- the unstamped pass

  /** One more step of a run. */
  lemma Extend(ss: seq<State>, acts: seq<Action>, a: Action) returns (ss': seq<State>, acts': seq<Action>)
    requires IsRun(ss, acts) && Enabled(ss[|acts|], a)
    ensures IsRun(ss', acts') && acts' == acts + [a] && ss' == ss + [Do(ss[|acts|], a)]
  {
    ss', acts' := ss + [Do(ss[|acts|], a)], acts + [a];
    forall i: nat | i < |acts'| ensures StepAt(ss', acts', i) {
      if i < |acts| { assert StepAt(ss, acts, i); }
    }
  }

  const ONE := Shard(0)
  const QUEUED := Row(Queued, "", map[])

  function OneEntry(progress: Progress, e: EntryState): Row {
    Row(progress, "a", map[ONE := e])
  }

  function TwoPasses(row: Row, m: Row, stage: Stage): State {
    State(row, 1, map[0 := Pass(0, m, stage, {}), 1 := Pass(1, m, stage, {})], 0, {}, false)
  }

  /** Two passes, one of them under the term 0, have both read the queued row. */
  lemma TwoPassesLoaded() returns (ss: seq<State>, acts: seq<Action>)
    ensures IsRun(ss, acts) && ss[|acts|] == TwoPasses(QUEUED, QUEUED, Loaded)
  {
    ss, acts := [State(QUEUED, 0, map[], 0, {}, true)], [];
    ss, acts := Extend(ss, acts, TakeTerm);
    ss, acts := Extend(ss, acts, StartPass(0, 0));
    ss, acts := Extend(ss, acts, StartPass(1, 1));
    assert ss[|acts|] == TwoPasses(QUEUED, QUEUED, Latched);
    ss, acts := Extend(ss, acts, Load(0));
    ss, acts := Extend(ss, acts, Load(1));
  }

  lemma TwoPassesPlanned() returns (ss: seq<State>, acts: seq<Action>)
    ensures IsRun(ss, acts) && ss[|acts|] == TwoPasses(OneEntry(InProgress, Pending), OneEntry(InProgress, Pending), Driving)
  {
    ss, acts := TwoPassesLoaded();
    ss, acts := Extend(ss, acts, Plan(1, "a", {ONE}, Written));
    assert AllPending({ONE}) == map[ONE := Pending];
    ss, acts := Extend(ss, acts, Plan(0, "a", {ONE}, Written));
  }

  /** A pass whose saves are admitted sends its one statement, which applies. */
  lemma AppliesOne(ss: seq<State>, acts: seq<Action>, p: PassId) returns (ss': seq<State>, acts': seq<Action>)
    requires IsRun(ss, acts) && At(ss[|acts|], p, Driving) && Admitted(ss[|acts|], p)
    requires ss[|acts|].passes[p].m == OneEntry(InProgress, Pending)
    ensures IsRun(ss', acts')
    ensures var s := ss[|acts|];
      ss'[|acts'|] == s.(row := OneEntry(InProgress, Applied), sent := s.sent + {("a", ONE)},
                         passes := s.passes[p := s.passes[p].(m := OneEntry(InProgress, Applied))])
  {
    var s := ss[|acts|];
    ss', acts' := Extend(ss, acts, MarkRunning(p, ONE, Written));
    ss', acts' := Extend(ss', acts', Send(p));
    ss', acts' := Extend(ss', acts', Settle(p, Applied, Written));
    assert map[ONE := Pending][ONE := Running][ONE := Applied] == map[ONE := Applied];
    assert ss'[|acts'|].passes == s.passes[p := s.passes[p].(m := OneEntry(InProgress, Applied))];
  }

  /** And finishes: the row is complete and its desired state committed once more. */
  lemma FinishesOne(ss: seq<State>, acts: seq<Action>, p: PassId) returns (ss': seq<State>, acts': seq<Action>)
    requires IsRun(ss, acts) && At(ss[|acts|], p, Driving) && Admitted(ss[|acts|], p)
    requires ss[|acts|].passes[p].m == OneEntry(InProgress, Applied)
    ensures IsRun(ss', acts')
    ensures var s := ss[|acts|];
      ss'[|acts'|] == s.(row := OneEntry(Complete, Applied), mirrors := s.mirrors + 1, passes := s.passes - {p})
  {
    var m := ss[|acts|].passes[p].m;
    assert ONE in m.per && Has(m.per, Applied) && !Has(m.per, Failed);
    ss', acts' := Extend(ss, acts, Finish(p, Done, Written));
  }

  /** A pass whose latched term is 0, as one that starts just after its process lost
      the leadership does, is not fenced: the leader and it both send the statement and
      both commit the desired-state statements of one migration. */
  lemma UnstampedPassMirrorsAgain() returns (ss: seq<State>, acts: seq<Action>)
    ensures IsRun(ss, acts) && ss[|acts|].mirrors == 2 && ss[|acts|].row.progress == Complete
  {
    ss, acts := TwoPassesPlanned();
    ss, acts := AppliesOne(ss, acts, 1);
    ss, acts := FinishesOne(ss, acts, 1);
    assert At(ss[|acts|], 0, Driving) && ss[|acts|].passes[0].m == OneEntry(InProgress, Pending);
    ss, acts := AppliesOne(ss, acts, 0);
    ss, acts := FinishesOne(ss, acts, 0);
  }
}
