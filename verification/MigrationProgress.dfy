/**
 What a leader can always get done with a migration.

 The theorems of Migrations say what its row never claims wrongly; these say that no
 crash, lost reply or change of leaders leaves it stuck: whatever state it is in, the
 next leader can bring it to an end.
 */
module MigrationProgress {
  import opened Migrations

  /** The entries a pass has still to drive. */
  function Unfinished(m: Row): set<Key> {
    set k | k in m.per && !Final(m.per[k])
  }

  /** What driving its entries leaves as it was. */
  predicate SamePass(s: State, s': State, p: PassId) {
    && At(s, p, Driving) && At(s', p, Driving) && Admitted(s', p)
    && s'.passes[p].term == s.passes[p].term && s'.passes[p].m.set_ == s.passes[p].m.set_
    && s'.passes[p].m.per.Keys == s.passes[p].m.per.Keys && s'.mirrors == s.mirrors && s'.stamped == s.stamped
    && (AnyFailed(s'.passes[p].m.per) ==> AnyFailed(s.passes[p].m.per))
  }

  lemma DrivesOne(ss: seq<State>, acts: seq<Action>, p: PassId, k: Key) returns (ss': seq<State>, acts': seq<Action>)
    requires IsRun(ss, acts) && At(ss[|acts|], p, Driving) && Admitted(ss[|acts|], p)
    requires k in Unfinished(ss[|acts|].passes[p].m) && (k == CatalogKey ==> !AnyFailed(ss[|acts|].passes[p].m.per))
    ensures IsRun(ss', acts') && acts <= acts' && SamePass(ss[|acts|], ss'[|acts'|], p)
    ensures ss'[|acts'|].passes[p].m.per == ss[|acts|].passes[p].m.per[k := Applied]
  {
    var m := ss[|acts|].passes[p].m;
    ss', acts' := Extend(ss, acts, MarkRunning(p, k, Written));
    ss', acts' := Extend(ss', acts', Send(p));
    ss', acts' := Extend(ss', acts', Settle(p, Applied, Written));
    assert m.per[k := Running][k := Applied] == m.per[k := Applied];
    NoNewFailure(m.per, k);
  }

  lemma NoNewFailure(per: map<Key, EntryState>, k: Key)
    ensures AnyFailed(per[k := Applied]) ==> AnyFailed(per)
  {
    if AnyFailed(per[k := Applied]) {
      var j :| j in per[k := Applied] && per[k := Applied][j] == Failed;
      assert j in per && per[j] == Failed;
    }
  }

  lemma FailsTheCatalog(ss: seq<State>, acts: seq<Action>, p: PassId) returns (ss': seq<State>, acts': seq<Action>)
    requires IsRun(ss, acts) && At(ss[|acts|], p, Driving) && Admitted(ss[|acts|], p)
    requires CatalogKey in Unfinished(ss[|acts|].passes[p].m) && AnyFailed(ss[|acts|].passes[p].m.per)
    ensures IsRun(ss', acts') && acts <= acts' && SamePass(ss[|acts|], ss'[|acts'|], p)
    ensures ss'[|acts'|].passes[p].m.per == ss[|acts|].passes[p].m.per[CatalogKey := Failed]
  {
    ss', acts' := Extend(ss, acts, FailCatalogEntry(p));
  }

  lemma {:induction false} DrivesAll(ss: seq<State>, acts: seq<Action>, p: PassId) returns (ss': seq<State>, acts': seq<Action>)
    requires IsRun(ss, acts) && At(ss[|acts|], p, Driving) && Admitted(ss[|acts|], p)
    ensures IsRun(ss', acts') && acts <= acts' && SamePass(ss[|acts|], ss'[|acts'|], p)
    ensures Unfinished(ss'[|acts'|].passes[p].m) == {}
    ensures Unfinished(ss[|acts|].passes[p].m) != {} && !AnyFailed(ss[|acts|].passes[p].m.per) ==> Has(ss'[|acts'|].passes[p].m.per, Applied)
    ensures Has(ss[|acts|].passes[p].m.per, Applied) ==> Has(ss'[|acts'|].passes[p].m.per, Applied)
    decreases |Unfinished(ss[|acts|].passes[p].m)|
  {
    var m := ss[|acts|].passes[p].m;
    var left := Unfinished(m);
    if left == {} {
      ss', acts' := ss, acts;
    } else {
      var k :| k in left;
      var e := if k == CatalogKey && AnyFailed(m.per) then Failed else Applied;
      if e == Failed {
        ss', acts' := FailsTheCatalog(ss, acts, p);
      } else {
        ss', acts' := DrivesOne(ss, acts, p, k);
      }
      OneLess(m, ss'[|acts'|].passes[p].m, k, e);
      ss', acts' := DrivesAll(ss', acts', p);
    }
  }

  lemma OneLess(m: Row, m': Row, k: Key, e: EntryState)
    requires k in Unfinished(m) && Final(e) && m'.per == m.per[k := e]
    ensures Unfinished(m') == Unfinished(m) - {k}
    ensures Has(m.per, Applied) || e == Applied ==> Has(m'.per, Applied)
  {
    if e == Applied {
      assert k in m'.per && m'.per[k] == Applied;
    } else if Has(m.per, Applied) {
      var j :| j in m.per && m.per[j] == Applied;
      assert j in m'.per && m'.per[j] == Applied;
    }
  }

  /** A pass in force that has taken up the entries brings the migration to an end. */
  lemma DrivesToTheEnd(ss: seq<State>, acts: seq<Action>, p: PassId) returns (ss': seq<State>, acts': seq<Action>)
    requires IsRun(ss, acts) && At(ss[|acts|], p, Driving) && Admitted(ss[|acts|], p)
    ensures IsRun(ss', acts') && acts <= acts' && (ss'[|acts'|].row.progress == Complete || ss'[|acts'|].row.progress == GaveUp)
    ensures var m := ss[|acts|].passes[p].m;
      !AnyFailed(m.per) && (Unfinished(m) != {} || Has(m.per, Applied)) ==>
        && ss'[|acts'|].row.progress == Complete && ss'[|acts'|].row.per.Keys == m.per.Keys
        && ss'[|acts'|].mirrors == ss[|acts|].mirrors + 1
  {
    ss', acts' := DrivesAll(ss, acts, p);
    var x := ss'[|acts'|].passes[p];
    assert AllTurnsOver(x) by {
      forall k | k in x.m.per ensures Final(x.m.per[k]) {
        assert k !in Unfinished(x.m);
      }
    }
    ss', acts' := Extend(ss', acts', Finish(p, Verdict(x.m.per), Written));
  }

  /** The next leader starts a pass and reads the row. */
  lemma NextLeaderLoads(ss: seq<State>, acts: seq<Action>, p: PassId) returns (ss': seq<State>, acts': seq<Action>)
    requires IsRun(ss, acts) && ss[|acts|].stamped && p !in ss[|acts|].passes
    requires ss[|acts|].row.progress == Queued || ss[|acts|].row.progress == InProgress
    ensures IsRun(ss', acts') && acts <= acts' && At(ss'[|acts'|], p, Loaded) && Admitted(ss'[|acts'|], p) && ss'[|acts'|].stamped
    ensures ss'[|acts'|].row == ss[|acts|].row == ss'[|acts'|].passes[p].m
    ensures ss'[|acts'|].sent == ss[|acts|].sent && ss'[|acts'|].mirrors == ss[|acts|].mirrors
  {
    RunKeepsInv(ss, acts, |acts|);
    var s := ss[|acts|];
    forall q | q in s.passes ensures s.passes[q].term <= s.term {
      assert PassOk(s, q);
    }
    ss', acts' := Extend(ss, acts, TakeTerm);
    ss', acts' := Extend(ss', acts', StartPass(p, s.term + 1));
    ss', acts' := Extend(ss', acts', Load(p));
  }

  /** In every reachable state of an unfinished migration the next leader can bring it to
      an end, whichever set serves then: one that has not begun on that set is completed, on
      exactly the targets planned for it, with its desired state committed. */
  lemma MigrationCanBeEnded(ss: seq<State>, acts: seq<Action>, p: PassId, serving: ShardSet, targets: set<Key>)
    returns (ss': seq<State>, acts': seq<Action>)
    requires IsRun(ss, acts) && ss[|acts|].stamped && p !in ss[|acts|].passes && targets != {}
    requires ss[|acts|].row.progress == Queued || ss[|acts|].row.progress == InProgress
    ensures IsRun(ss', acts') && acts <= acts' && (ss'[|acts'|].row.progress == Complete || ss'[|acts'|].row.progress == GaveUp)
    ensures Unstarted(ss[|acts|].row, serving) ==>
      && ss'[|acts'|].row.progress == Complete && ss'[|acts'|].row.per.Keys == targets
      && ss'[|acts'|].mirrors == ss[|acts|].mirrors + 1
  {
    ss', acts' := NextLeaderLoads(ss, acts, p);
    var m := ss'[|acts'|].passes[p].m;
    if Unstarted(m, serving) {
      ss', acts' := Extend(ss', acts', Plan(p, serving, targets, Written));
      var k :| k in targets;
      assert k in Unfinished(ss'[|acts'|].passes[p].m);
      ss', acts' := DrivesToTheEnd(ss', acts', p);
    } else if m.set_ == serving {
      ss', acts' := Extend(ss', acts', ResumeRow(p, serving));
      ss', acts' := DrivesToTheEnd(ss', acts', p);
    } else {
      ss', acts' := Extend(ss', acts', FailStraddled(p, serving, Written));
    }
  }

  /** One that has not begun can be called off instead, and then has reached no shard. */
  lemma UnstartedCanBeCalledOff(ss: seq<State>, acts: seq<Action>, p: PassId, serving: ShardSet)
    returns (ss': seq<State>, acts': seq<Action>)
    requires IsRun(ss, acts) && ss[|acts|].stamped && p !in ss[|acts|].passes && Unstarted(ss[|acts|].row, serving)
    requires ss[|acts|].row.progress == Queued || ss[|acts|].row.progress == InProgress
    ensures IsRun(ss', acts') && acts <= acts' && ss'[|acts'|].row.progress == GaveUp
    ensures ss'[|acts'|].sent == {} && ss'[|acts'|].mirrors == 0
  {
    RunKeepsInv(ss, acts, |acts|);
    assert forall t | t in ss[|acts|].sent :: Records(ss[|acts|].row, t);
    ss', acts' := NextLeaderLoads(ss, acts, p);
    ss', acts' := Extend(ss', acts', FailUnstarted(p, serving, Written));
  }

  /** A pass that finds it no longer leads, before another has taken a term, leaves the
      entry it was retrying as it is and completes the migration with it. */
  lemma UnledPassCompletes(ss: seq<State>, acts: seq<Action>, p: PassId, k: Key) returns (ss': seq<State>, acts': seq<Action>)
    requires IsRun(ss, acts) && At(ss[|acts|], p, Driving) && Admitted(ss[|acts|], p)
    requires var m := ss[|acts|].passes[p].m; Unfinished(m) == {k} && m.per[k] == Retrying && !AnyFailed(m.per) && Has(m.per, Applied)
    ensures IsRun(ss', acts') && acts <= acts' && ss'[|acts'|].row == ss[|acts|].passes[p].m.(progress := Complete)
    ensures ss'[|acts'|].row.per[k] == Retrying
  {
    ss', acts' := Extend(ss, acts, Abandon(p, k));
    var x := ss'[|acts'|].passes[p];
    forall j | j in x.m.per ensures Final(x.m.per[j]) || j in x.gaveUp {
      if j != k { assert j !in Unfinished(x.m); }
    }
    ss', acts' := Extend(ss', acts', Finish(p, Done, Written));
  }
}
