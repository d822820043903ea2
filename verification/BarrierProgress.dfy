/**
 What a barrier and a coordinator can always get done.

 The theorems of BarrierCut say what a certified barrier means; these say that the
 checks on the way never stand in the way of a barrier nobody disturbs: from every
 consistent cluster there is a run in which it is certified, and a coordinator whose
 participants have all written can commit.
 */
module BarrierProgress {
  import opened Common
  import opened BarrierCut

  function Last(ss: seq<State>): State
    requires ss != []
  {
    ss[|ss|-1]
  }

  lemma NoneLeft<T>(all: set<T>, done: set<T>)
    requires done <= all && all - done == {}
    ensures done == all
  {
    forall x | x in all ensures x in done {
      assert x !in all - done;
    }
  }

  // ------------------------------------------------- the clients finish

  function OpenTxns(db: Cluster): set<TxnId> {
    set t | t in db.txns && db.txns[t].status == Open
  }

  function PreparedTxns(db: Cluster): set<TxnId> {
    set t | t in db.txns && db.txns[t].status == Prepared
  }

  function Undecided(db: Cluster): set<Gid> {
    set x | x in db.decisions && db.decisions[x].fate == Preparing
  }

  predicate Quiet(db: Cluster) {
    OpenTxns(db) == {} && PreparedTxns(db) == {} && Undecided(db) == {}
  }

  /** Only transactions and decisions changed. */
  predicate SameBarrier(s: State, s': State) {
    s'.ctl == s.ctl && s'.fence == s.fence && s'.db.paused == s.db.paused && s'.db.clock == s.db.clock
  }

  lemma {:induction false} CanCloseAll(ss: seq<State>) returns (ss': seq<State>)
    requires IsRun(ss)
    ensures IsRun(ss') && ss <= ss' && SameBarrier(Last(ss), Last(ss')) && OpenTxns(Last(ss').db) == {}
    decreases |OpenTxns(Last(ss).db)|
  {
    var db := Last(ss).db;
    if OpenTxns(db) == {} {
      ss' := ss;
    } else {
      var t :| t in OpenTxns(db);
      ss' := Take(ss, Client(RollbackOpen(t)));
      assert OpenTxns(Last(ss').db) == OpenTxns(db) - {t};
      ss' := CanCloseAll(ss');
    }
  }

  lemma {:induction false} CanDecideAll(ss: seq<State>) returns (ss': seq<State>)
    requires IsRun(ss) && OpenTxns(Last(ss).db) == {}
    ensures IsRun(ss') && ss <= ss' && SameBarrier(Last(ss), Last(ss'))
    ensures OpenTxns(Last(ss').db) == {} && Undecided(Last(ss').db) == {}
    decreases |Undecided(Last(ss).db)|
  {
    var db := Last(ss).db;
    if Undecided(db) == {} {
      ss' := ss;
    } else {
      var gid :| gid in Undecided(db);
      ss' := Take(ss, Client(Decide(gid, false)));
      assert Undecided(Last(ss').db) == Undecided(db) - {gid};
      assert Last(ss').db.txns == db.txns;
      ss' := CanDecideAll(ss');
    }
  }

  lemma {:induction false} CanResolveAll(ss: seq<State>) returns (ss': seq<State>)
    requires IsRun(ss) && OpenTxns(Last(ss).db) == {} && Undecided(Last(ss).db) == {}
    ensures IsRun(ss') && ss <= ss' && SameBarrier(Last(ss), Last(ss')) && Quiet(Last(ss').db)
    decreases |PreparedTxns(Last(ss).db)|
  {
    var db := Last(ss).db;
    if PreparedTxns(db) == {} {
      ss' := ss;
    } else {
      var t :| t in PreparedTxns(db);
      var commit := Coordinated(db, db.txns[t]) && db.decisions[db.txns[t].gid.value].fate == Commit;
      ss' := Take(ss, Client(if commit then CommitPrepared(t) else RollbackPrepared(t)));
      assert PreparedTxns(Last(ss').db) == PreparedTxns(db) - {t};
      assert OpenTxns(Last(ss').db) == OpenTxns(db) && Last(ss').db.decisions == db.decisions;
      ss' := CanResolveAll(ss');
    }
  }

  lemma CanQuiesce(ss: seq<State>) returns (ss': seq<State>)
    requires IsRun(ss)
    ensures IsRun(ss') && ss <= ss' && SameBarrier(Last(ss), Last(ss')) && Quiet(Last(ss').db)
  {
    ss' := CanCloseAll(ss);
    ss' := CanDecideAll(ss');
    ss' := CanResolveAll(ss');
  }

  // ------------------------------------------------- the barrier goes through

  /** A quiet cluster on which nobody has touched the barrier's fence or its pauses. */
  predicate Undisturbed(s: State) {
    && Quiet(s.db) && s.fence.owner == s.ctl.token
    && s.ctl.pausedAt.Keys <= s.db.paused && s.ctl.pausedAt.Keys <= Shards(s.ctl)
    && (s.ctl.phase != PAUSING ==> s.ctl.pausedAt.Keys == Shards(s.ctl))
  }

  /** Later in the same barrier, with no client having acted. */
  predicate Onward(s: State, s': State) {
    s'.ctl.groups == s.ctl.groups && s'.db.watermark == s.db.watermark && s'.ctl.before == s.ctl.before
  }

  lemma QuietHasNone(db: Cluster, g: Group, since: nat)
    requires Quiet(db)
    ensures PreparedOn(db, g) == {} && WritersSince(db, g, since) == {} && PreparingRows(db) == {}
  {
    forall t ensures t !in PreparedOn(db, g) && t !in WritersSince(db, g, since) {
      assert t !in OpenTxns(db) && t !in PreparedTxns(db);
    }
    forall x ensures x !in PreparingRows(db) {
      assert x !in Undecided(db);
    }
  }

  lemma StaysQuiet(db: Cluster, db': Cluster)
    requires Quiet(db) && db'.txns == db.txns && db'.decisions == db.decisions
    ensures Quiet(db')
  {
  }

  /** One shard is paused, and its pause confirmed. */
  lemma PausesOne(ss: seq<State>, g: Group) returns (ss': seq<State>)
    requires IsRun(ss) && Last(ss).ctl.phase == PAUSING && g in Shards(Last(ss).ctl) - Last(ss).ctl.pausedAt.Keys
    ensures IsRun(ss') && ss <= ss'
    ensures Last(ss') == Last(ss).(db := Last(ss).db.(paused := Last(ss).db.paused + {g}),
                                   ctl := Last(ss).ctl.(pausedAt := Last(ss).ctl.pausedAt[g := Clock(Last(ss).db, g)]))
  {
    ss' := Take(ss, Own(ApplyPause(g)));
    ss' := Take(ss', Own(ConfirmPause(g)));
  }

  lemma PauseDisturbsNothing(s: State, s': State, g: Group)
    requires Undisturbed(s) && s.ctl.phase == PAUSING && g in Shards(s.ctl) - s.ctl.pausedAt.Keys
    requires s' == s.(db := s.db.(paused := s.db.paused + {g}), ctl := s.ctl.(pausedAt := s.ctl.pausedAt[g := Clock(s.db, g)]))
    ensures Undisturbed(s') && Shards(s'.ctl) - s'.ctl.pausedAt.Keys == Shards(s.ctl) - s.ctl.pausedAt.Keys - {g}
  {
    StaysQuiet(s.db, s'.db);
  }

  lemma {:induction false} CanPauseAll(ss: seq<State>) returns (ss': seq<State>)
    requires IsRun(ss) && Undisturbed(Last(ss)) && Last(ss).ctl.phase == PAUSING
    ensures IsRun(ss') && ss <= ss' && Undisturbed(Last(ss')) && Last(ss').ctl.pausedAt.Keys == Shards(Last(ss).ctl)
    ensures Last(ss').ctl == Last(ss).ctl.(pausedAt := Last(ss').ctl.pausedAt)
    decreases |Shards(Last(ss).ctl) - Last(ss).ctl.pausedAt.Keys|
  {
    var s := Last(ss);
    var left := Shards(s.ctl) - s.ctl.pausedAt.Keys;
    if left == {} {
      NoneLeft(Shards(s.ctl), s.ctl.pausedAt.Keys);
      ss' := ss;
    } else {
      var g :| g in left;
      ss' := PausesOne(ss, g);
      PauseDisturbsNothing(s, Last(ss'), g);
      ss' := CanPauseAll(ss');
    }
  }

  /** Nothing has been pointed at or verified yet. */
  predicate Fresh(s: State) {
    s.ctl.cut == map[] && s.ctl.verified == {} && !s.ctl.ours && s.ctl.passed == {} && !s.ctl.polled
  }

  predicate SameButPolls(s: State, s': State) {
    s'.db == s.db && s'.fence == s.fence && s'.ctl == s.ctl.(polled := s'.ctl.polled, passed := s'.ctl.passed)
  }

  lemma SeesNonePrepared(ss: seq<State>, g: Group) returns (ss': seq<State>)
    requires IsRun(ss) && CanOwn(Last(ss), SeePrepared(g)) && Quiet(Last(ss).db)
    ensures IsRun(ss') && ss <= ss' && Last(ss') == Last(ss).(ctl := Last(ss).ctl.(passed := Last(ss).ctl.passed + {g}))
  {
    QuietHasNone(Last(ss).db, g, 0);
    ss' := Take(ss, Own(SeePrepared(g)));
  }

  lemma {:induction false} CanSeeAll(ss: seq<State>) returns (ss': seq<State>)
    requires IsRun(ss) && Undisturbed(Last(ss)) && Last(ss).ctl.passed <= Last(ss).ctl.groups
    requires (Last(ss).ctl.phase == DRAINING || Last(ss).ctl.phase == REDRAINING) && Last(ss).ctl.polled
    ensures IsRun(ss') && ss <= ss' && SameButPolls(Last(ss), Last(ss'))
    ensures Last(ss').ctl.polled && Last(ss').ctl.passed == Last(ss).ctl.groups
    decreases |Last(ss).ctl.groups - Last(ss).ctl.passed|
  {
    var s := Last(ss);
    var left := s.ctl.groups - s.ctl.passed;
    if left == {} {
      NoneLeft(s.ctl.groups, s.ctl.passed);
      ss' := ss;
    } else {
      var g :| g in left;
      ss' := SeesNonePrepared(ss, g);
      assert s.ctl.groups - Last(ss').ctl.passed == left - {g};
      ss' := CanSeeAll(ss');
    }
  }

  lemma SeesNoWriter(ss: seq<State>, g: Group) returns (ss': seq<State>)
    requires IsRun(ss) && CanOwn(Last(ss), SeeWriters(g)) && Quiet(Last(ss).db)
    ensures IsRun(ss') && ss <= ss' && Last(ss') == Last(ss).(ctl := Last(ss).ctl.(passed := Last(ss).ctl.passed + {g}))
  {
    QuietHasNone(Last(ss).db, g, Last(ss).ctl.pausedAt[g]);
    ss' := Take(ss, Own(SeeWriters(g)));
  }

  lemma {:induction false} CanSeeWriters(ss: seq<State>) returns (ss': seq<State>)
    requires IsRun(ss) && Undisturbed(Last(ss)) && Last(ss).ctl.passed <= Shards(Last(ss).ctl)
    requires Last(ss).ctl.phase == DRAINING_WRITERS || Last(ss).ctl.phase == REDRAINING_WRITERS
    ensures IsRun(ss') && ss <= ss' && SameButPolls(Last(ss), Last(ss')) && Last(ss').ctl.passed == Shards(Last(ss).ctl)
    decreases |Shards(Last(ss).ctl) - Last(ss).ctl.passed|
  {
    var s := Last(ss);
    var left := Shards(s.ctl) - s.ctl.passed;
    if left == {} {
      NoneLeft(Shards(s.ctl), s.ctl.passed);
      ss' := ss;
    } else {
      var g :| g in left;
      ss' := SeesNoWriter(ss, g);
      assert Shards(s.ctl) - Last(ss').ctl.passed == left - {g};
      ss' := CanSeeWriters(ss');
    }
  }

  /** Both halves of a drain, the first or the second one. */
  lemma CanDrain(ss: seq<State>) returns (ss': seq<State>)
    requires IsRun(ss) && Undisturbed(Last(ss)) && Fresh(Last(ss))
    requires Last(ss).ctl.phase == DRAINING || Last(ss).ctl.phase == REDRAINING
    ensures IsRun(ss') && ss <= ss' && Undisturbed(Last(ss')) && Fresh(Last(ss')) && Onward(Last(ss), Last(ss'))
    ensures Last(ss').ctl.phase == Last(ss).ctl.phase + 2
  {
    QuietHasNone(Last(ss).db, CATALOG, 0);
    ss' := Take(ss, Own(SeePreparing));
    ss' := CanSeeAll(ss');
    ss' := Advances(ss');
    ss' := CanSeeWriters(ss');
    ss' := Advances(ss');
  }

  predicate SameButPoints(s: State, s': State) {
    s'.db == s.db && s'.fence == s.fence && s'.ctl == s.ctl.(cut := s'.ctl.cut)
  }

  lemma PointsOne(ss: seq<State>, g: Group) returns (ss': seq<State>)
    requires IsRun(ss) && CanOwn(Last(ss), CreatePoint(g))
    ensures IsRun(ss') && ss <= ss'
    ensures SameButPoints(Last(ss), Last(ss')) && Last(ss').ctl.cut.Keys == Last(ss).ctl.cut.Keys + {g}
  {
    ss' := Take(ss, Own(CreatePoint(g)));
  }

  lemma {:induction false} CanPointAll(ss: seq<State>) returns (ss': seq<State>)
    requires IsRun(ss) && Last(ss).ctl.phase == POINTING && Last(ss).ctl.cut.Keys <= Last(ss).ctl.groups
    ensures IsRun(ss') && ss <= ss' && SameButPoints(Last(ss), Last(ss')) && Last(ss').ctl.cut.Keys == Last(ss).ctl.groups
    decreases |Last(ss).ctl.groups - Last(ss).ctl.cut.Keys|
  {
    var s := Last(ss);
    var left := s.ctl.groups - s.ctl.cut.Keys;
    if left == {} {
      NoneLeft(s.ctl.groups, s.ctl.cut.Keys);
      ss' := ss;
    } else {
      var g :| g in left;
      ss' := PointsOne(ss, g);
      assert s.ctl.groups - Last(ss').ctl.cut.Keys == left - {g};
      ss' := CanPointAll(ss');
    }
  }

  lemma VerifiesOne(ss: seq<State>, g: Group) returns (ss': seq<State>)
    requires IsRun(ss) && CanOwn(Last(ss), Verify(g)) && Quiet(Last(ss).db) && g in Last(ss).db.paused
    ensures IsRun(ss') && ss <= ss' && Last(ss') == Last(ss).(ctl := Last(ss).ctl.(verified := Last(ss).ctl.verified + {g}))
  {
    QuietHasNone(Last(ss).db, g, Last(ss).ctl.pausedAt[g]);
    ss' := Take(ss, Own(Verify(g)));
  }

  lemma {:induction false} CanVerifyAll(ss: seq<State>) returns (ss': seq<State>)
    requires IsRun(ss) && Undisturbed(Last(ss)) && Last(ss).ctl.phase == VERIFYING && Last(ss).ctl.ours
    requires Last(ss).ctl.verified <= Shards(Last(ss).ctl)
    ensures IsRun(ss') && ss <= ss' && Last(ss') == Last(ss).(ctl := Last(ss).ctl.(verified := Shards(Last(ss).ctl)))
    decreases |Shards(Last(ss).ctl) - Last(ss).ctl.verified|
  {
    var s := Last(ss);
    var left := Shards(s.ctl) - s.ctl.verified;
    if left == {} {
      NoneLeft(Shards(s.ctl), s.ctl.verified);
      ss' := ss;
    } else {
      var g :| g in left;
      ss' := VerifiesOne(ss, g);
      assert Shards(s.ctl) - Last(ss').ctl.verified == left - {g};
      ss' := CanVerifyAll(ss');
    }
  }

  lemma Advances(ss: seq<State>) returns (ss': seq<State>)
    requires IsRun(ss) && PhaseDone(Last(ss).ctl)
    ensures IsRun(ss') && ss <= ss' && Last(ss') == Last(ss).(ctl := StepPhase(Last(ss)))
  {
    ss' := Take(ss, Own(Advance));
  }

  /** From the first restore point on. */
  lemma CanFinish(ss: seq<State>) returns (ss': seq<State>)
    requires IsRun(ss) && Undisturbed(Last(ss)) && Fresh(Last(ss)) && Last(ss).ctl.phase == POINTING
    requires Last(ss).ctl.before == Last(ss).db.watermark
    ensures IsRun(ss') && ss <= ss' && Last(ss').ctl.phase == CERTIFIED && Last(ss').ctl.groups == Last(ss).ctl.groups
  {
    ss' := CanPointAll(ss);
    ss' := Advances(ss');
    ss' := Take(ss', Own(RereadWatermark));
    ss' := Take(ss', Own(VerifyFence));
    ss' := CanVerifyAll(ss');
    ss' := Advances(ss');
  }

  /** From every consistent cluster, with transactions open, prepared or decided in any
      combination, a barrier can be certified: once the clients have finished and nobody
      touches its fence and its pauses, no check of its own stops it. */
  lemma BarrierCanCertify(s: State) returns (ss: seq<State>)
    requires Init(s)
    ensures IsRun(ss) && ss[0] == s && Last(ss).ctl.phase == CERTIFIED && Last(ss).ctl.groups == s.ctl.groups
  {
    ss := [s];
    ss := CanQuiesce(ss);
    ss := CanPauseAll(ss);
    ss := Advances(ss);
    ss := CanDrain(ss);
    ss := Take(ss, Own(ReadWatermark));
    ss := CanDrain(ss);
    ss := CanFinish(ss);
  }

  // ------------------------------------------------- the coordinator commits

  /** The participants of gid whose branch is not prepared. */
  function Unprepared(db: Cluster, gid: Gid): set<Group>
    requires gid in db.decisions
  {
    var d := db.decisions[gid];
    set p | p in d.participants && !(p in d.branch && HasStatus(db, d.branch[p], Prepared))
  }

  /** Each of those participants has an open transaction that wrote. */
  predicate CanPrepare(db: Cluster, gid: Gid, work: map<Group, TxnId>)
    requires gid in db.decisions
  {
    forall p | p in Unprepared(db, gid) ::
      p in work && HasStatus(db, work[p], Open) && db.txns[work[p]].group == p && db.txns[work[p]].wrote
  }

  /** A coordinator whose participants have all written and are open or prepared can prepare
      the rest and commit, in any state of a barrier. */
  lemma {:induction false} CoordinatorCanCommit(ss: seq<State>, gid: Gid, work: map<Group, TxnId>) returns (ss': seq<State>)
    requires IsRun(ss) && gid in Last(ss).db.decisions && Last(ss).db.decisions[gid].fate == Preparing
    requires CanPrepare(Last(ss).db, gid, work)
    ensures IsRun(ss') && ss <= ss' && Last(ss').ctl == Last(ss).ctl
    ensures gid in Last(ss').db.decisions && Last(ss').db.decisions[gid].fate == Commit
    decreases |Unprepared(Last(ss).db, gid)|
  {
    var db := Last(ss).db;
    if Unprepared(db, gid) == {} {
      assert AllPrepared(db, db.decisions[gid]) by {
        forall p | p in db.decisions[gid].participants
          ensures p in db.decisions[gid].branch && HasStatus(db, db.decisions[gid].branch[p], Prepared)
        {
          assert p !in Unprepared(db, gid);
        }
      }
      ss' := Take(ss, Client(Decide(gid, true)));
    } else {
      var p :| p in Unprepared(db, gid);
      RunKeepsInv(ss, |ss| - 1);
      assert DecisionOk(db, gid);
      ss' := Take(ss, Client(Prepare(work[p], gid)));
      PrepareCounts(db, gid, work, p);
      ss' := CoordinatorCanCommit(ss', gid, work);
    }
  }

  lemma PrepareCounts(db: Cluster, gid: Gid, work: map<Group, TxnId>, p: Group)
    requires gid in db.decisions && DecisionOk(db, gid) && p in Unprepared(db, gid) && CanPrepare(db, gid, work) && CanDo(db, Prepare(work[p], gid))
    ensures var db' := DoClient(db, Prepare(work[p], gid));
      gid in db'.decisions && Unprepared(db', gid) == Unprepared(db, gid) - {p} && CanPrepare(db', gid, work)
  {
    var d, db' := db.decisions[gid], DoClient(db, Prepare(work[p], gid));
    forall q | q in d.participants && q != p ensures q in Unprepared(db', gid) <==> q in Unprepared(db, gid) {
      if q in d.branch { assert BranchOk(db, gid, q); }
    }
  }
}
