/**
 The progress of a copy, folded from what every subscription reports, and the test a
 switch waits for.
 */
module CopyProgress {
  const LAG_UNKNOWN := -1
  const BLOCKER_SAMPLES := 3

  /** One subscription: its relations counted by state, 'r' being ready, in whatever order
      the counts come; its lag in bytes. */
  datatype Report = Report(name: string, blockers: seq<string>, rels: seq<(char, nat)>, lag: int, enabled: bool)

  datatype Progress = Progress(subscriptions: nat, total: nat, ready: nat, lag: int, paused: nat, enumerating: nat,
                               blockers: seq<string>, lagFrom: string)

  /** What the switch waits for. */
  predicate CaughtUp(p: Progress, threshold: int) {
    p.subscriptions > 0 && p.enumerating == 0 && p.total > 0 && p.total == p.ready && 0 <= p.lag < threshold
  }

  // -------------------------------------------------- the fold as a function

  function Tables(rels: seq<(char, nat)>): nat {
    if rels == [] then 0 else Tables(rels[..|rels|-1]) + rels[|rels|-1].1
  }

  function ReadyTables(rels: seq<(char, nat)>): (n: nat)
    ensures n <= Tables(rels)
  {
    if rels == [] then 0
    else ReadyTables(rels[..|rels|-1]) + if rels[|rels|-1].0 == 'r' then rels[|rels|-1].1 else 0
  }

  function Named(r: Report, b: string): string {
    if r.name != "" then r.name + " " + b else b
  }

  /** The sample so far, and as many of the report's blockers as it has room for. */
  function Sampled(sample: seq<string>, r: Report, n: nat): seq<string>
    requires n <= |r.blockers|
  {
    if n == 0 then sample
    else
      var s := Sampled(sample, r, n - 1);
      if |s| >= BLOCKER_SAMPLES then s else s + [Named(r, r.blockers[n-1])]
  }

  function Add(p: Progress, r: Report): Progress {
    var tables := Tables(r.rels);
    var p1 := p.(subscriptions := p.subscriptions + 1, total := p.total + tables, ready := p.ready + ReadyTables(r.rels),
                 enumerating := p.enumerating + (if tables == 0 then 1 else 0),
                 paused := p.paused + (if r.enabled then 0 else 1),
                 blockers := Sampled(p.blockers, r, |r.blockers|));
    if p.lag == LAG_UNKNOWN then p1
    else if r.lag == LAG_UNKNOWN || r.lag > p.lag then p1.(lag := r.lag, lagFrom := r.name)
    else p1
  }

  function Folded(reports: seq<Report>): Progress {
    if reports == [] then Progress(0, 0, 0, 0, 0, 0, [], "") else Add(Folded(reports[..|reports|-1]), reports[|reports|-1])
  }

  lemma FoldedNext(reports: seq<Report>, i: nat)
    requires i < |reports|
    ensures Folded(reports[..i+1]) == Add(Folded(reports[..i]), reports[i])
  {
    assert reports[..i+1][..i] == reports[..i];
  }

  method Aggregate(reports: seq<Report>) returns (p: Progress)
    ensures p == Folded(reports)
  {
    p := Progress(0, 0, 0, 0, 0, 0, [], "");
    for i := 0 to |reports|
      invariant p == Folded(reports[..i])
    {
      FoldedNext(reports, i);
      p := AddReport(p, reports[i]);
    }
    assert reports[..|reports|] == reports;
  }

  method AddReport(p0: Progress, r: Report) returns (p: Progress)
    ensures p == Add(p0, r)
  {
    var sample := SampleBlockers(p0.blockers, r);
    var total, ready := CountTables(r.rels);
    var lag, lagFrom := p0.lag, p0.lagFrom;
    if lag != LAG_UNKNOWN && (r.lag == LAG_UNKNOWN || r.lag > lag) {
      lag, lagFrom := r.lag, r.name;
    }
    p := Progress(p0.subscriptions + 1, p0.total + total, p0.ready + ready, lag, p0.paused + (if r.enabled then 0 else 1),
                  p0.enumerating + (if total == 0 then 1 else 0), sample, lagFrom);
  }

  function Min(a: nat, b: nat): nat {
    if a < b then a else b
  }

  /** The first blockers of the report, as many as there is room for. */
  method SampleBlockers(sample: seq<string>, r: Report) returns (s: seq<string>)
    ensures s == Sampled(sample, r, |r.blockers|)
    ensures var n := Min(|r.blockers|, if |sample| < BLOCKER_SAMPLES then BLOCKER_SAMPLES - |sample| else 0);
      |s| == |sample| + n && sample <= s && forall i | 0 <= i < n :: s[|sample| + i] == Named(r, r.blockers[i])
  {
    s := sample;
    var i := 0;
    while i < |r.blockers| && |s| < BLOCKER_SAMPLES
      invariant i <= |r.blockers| && s == Sampled(sample, r, i)
      invariant |s| == |sample| + i && sample <= s && (i > 0 ==> |s| <= BLOCKER_SAMPLES)
      invariant forall j | 0 <= j < i :: s[|sample| + j] == Named(r, r.blockers[j])
    {
      s := s + [Named(r, r.blockers[i])];
      i := i + 1;
    }
    FullStaysFull(sample, r, i);
  }

  lemma {:induction false} FullStaysFull(sample: seq<string>, r: Report, n: nat)
    requires n <= |r.blockers| && (n == |r.blockers| || |Sampled(sample, r, n)| >= BLOCKER_SAMPLES)
    ensures Sampled(sample, r, |r.blockers|) == Sampled(sample, r, n)
    decreases |r.blockers| - n
  {
    if n < |r.blockers| {
      FullStaysFull(sample, r, n + 1);
    }
  }

  method CountTables(rels: seq<(char, nat)>) returns (total: nat, ready: nat)
    ensures total == Tables(rels) && ready == ReadyTables(rels)
  {
    total, ready := 0, 0;
    for i := 0 to |rels|
      invariant total == Tables(rels[..i]) && ready == ReadyTables(rels[..i])
    {
      assert rels[..i+1][..i] == rels[..i];
      total := total + rels[i].1;
      if rels[i].0 == 'r' {
        ready := ready + rels[i].1;
      }
    }
    assert rels[..|rels|] == rels;
  }

  // ------------------------------------------------ what caught up means

  /** Said of the subscriptions one by one: there is one, and each has tables, all of
      them ready, and a known lag below the threshold. */
  predicate MayCutOver(reports: seq<Report>, threshold: int) {
    && reports != [] && threshold > 0
    && forall r | r in reports :: Tables(r.rels) > 0 && ReadyTables(r.rels) == Tables(r.rels) && r.lag != LAG_UNKNOWN && r.lag < threshold
  }

  lemma {:induction false} FoldedReady(reports: seq<Report>)
    ensures var p := Folded(reports);
      p.ready <= p.total && (p.ready == p.total <==> forall r | r in reports :: ReadyTables(r.rels) == Tables(r.rels))
  {
    if reports != [] {
      var rest, last := reports[..|reports|-1], reports[|reports|-1];
      FoldedReady(rest);
      assert reports == rest + [last];
    }
  }

  lemma {:induction false} FoldedCounts(reports: seq<Report>)
    ensures var p := Folded(reports);
      && p.subscriptions == |reports|
      && (p.enumerating == 0 <==> forall r | r in reports :: Tables(r.rels) > 0)
      && (reports != [] && p.enumerating == 0 ==> p.total > 0)
  {
    if reports != [] {
      var rest, last := reports[..|reports|-1], reports[|reports|-1];
      FoldedCounts(rest);
      assert reports == rest + [last];
    }
  }

  lemma {:induction false} FoldedLag(reports: seq<Report>, threshold: int)
    requires threshold > 0
    ensures var p := Folded(reports);
      && p.lag >= LAG_UNKNOWN
      && (0 <= p.lag < threshold <==> forall r | r in reports :: r.lag != LAG_UNKNOWN && r.lag < threshold)
  {
    if reports != [] {
      var rest, last := reports[..|reports|-1], reports[|reports|-1];
      FoldedLag(rest, threshold);
      assert reports == rest + [last];
    }
  }

  function Disabled(reports: seq<Report>): set<nat> {
    set i | 0 <= i < |reports| && !reports[i].enabled
  }

  /** The paused count is the number of disabled subscriptions. */
  lemma {:induction false} FoldedPaused(reports: seq<Report>)
    ensures Folded(reports).paused == |Disabled(reports)|
  {
    if reports != [] {
      var n := |reports| - 1;
      FoldedPaused(reports[..n]);
      if reports[n].enabled {
        assert Disabled(reports) == Disabled(reports[..n]);
      } else {
        assert Disabled(reports) == Disabled(reports[..n]) + {n};
      }
    }
  }

  /** The lag is one that a subscription reported, and the name given with it is that
      subscription's; an unknown lag hides every other, and no known one is larger. */
  lemma {:induction false} LagHasAnOwner(reports: seq<Report>)
    ensures var p := Folded(reports);
      && (p.lag != 0 ==> exists r | r in reports :: r.lag == p.lag && r.name == p.lagFrom)
      && (p.lag != LAG_UNKNOWN ==> forall r | r in reports :: r.lag <= p.lag && r.lag != LAG_UNKNOWN)
  {
    if reports != [] {
      var rest, last := reports[..|reports|-1], reports[|reports|-1];
      LagHasAnOwner(rest);
      assert reports == rest + [last];
      assert last in reports && forall r | r in rest :: r in reports;
    }
  }

  /** Each sampled blocker is one that a subscription reported, with that subscription's name
      before it if it has one. */
  predicate IsBlocker(reports: seq<Report>, b: string) {
    exists r, x | r in reports && x in r.blockers :: b == (if r.name == "" then x else r.name + " " + x)
  }

  lemma {:induction false} SampledAreBlockers(sample: seq<string>, reports: seq<Report>, r: Report, n: nat)
    requires n <= |r.blockers| && r in reports && forall b | b in sample :: IsBlocker(reports, b)
    ensures forall b | b in Sampled(sample, r, n) :: IsBlocker(reports, b)
  {
    if n > 0 {
      SampledAreBlockers(sample, reports, r, n - 1);
      assert r.blockers[n-1] in r.blockers && IsBlocker(reports, Named(r, r.blockers[n-1]));
    }
  }

  lemma {:induction false} BlockersAreReported(reports: seq<Report>)
    ensures |Folded(reports).blockers| <= BLOCKER_SAMPLES
    ensures forall b | b in Folded(reports).blockers :: IsBlocker(reports, b)
  {
    if reports != [] {
      var rest, last := reports[..|reports|-1], reports[|reports|-1];
      BlockersAreReported(rest);
      assert reports == rest + [last] && last in reports;
      forall b | b in Folded(rest).blockers ensures IsBlocker(reports, b) {
        var r, x :| r in rest && x in r.blockers && b == if r.name == "" then x else r.name + " " + x;
        assert r in reports;
      }
      SampledAreBlockers(Folded(rest).blockers, reports, last, |last.blockers|);
      AtMostThree(Folded(rest).blockers, last, |last.blockers|);
    }
  }

  lemma {:induction false} AtMostThree(sample: seq<string>, r: Report, n: nat)
    requires n <= |r.blockers| && |sample| <= BLOCKER_SAMPLES
    ensures |Sampled(sample, r, n)| <= BLOCKER_SAMPLES
  {
    if n > 0 {
      AtMostThree(sample, r, n - 1);
    }
  }

  /** The folded record is caught up exactly when every subscription is: nothing is
      averaged away, an unknown lag is never under the threshold, and a subscription
      without tables yet is not counted as done. */
  lemma CaughtUpIff(reports: seq<Report>, threshold: int)
    ensures CaughtUp(Folded(reports), threshold) <==> MayCutOver(reports, threshold)
  {
    FoldedCounts(reports);
    FoldedReady(reports);
    if threshold > 0 {
      FoldedLag(reports, threshold);
    }
  }
}
