/**
 Waiting until every group has archived the WAL segment of its restore point.

 The archiver reports the name of the last file it archived; the barrier compares
 that name with a segment name as strings.  This is right only because segment
 names have a fixed length and upper-case hexadecimal digits, and only within one
 timeline.
 */
module WalArchive {
  import opened Common

  // ---------------------------------------------------------- hexadecimal

  predicate HexDigit(c: char) {
    '0' <= c <= '9' || 'A' <= c <= 'F'
  }

  predicate Hex(s: string) {
    forall i | 0 <= i < |s| :: HexDigit(s[i])
  }

  function DigitValue(c: char): nat
    requires HexDigit(c)
  {
    if c <= '9' then (c - '0') as nat else (c - 'A') as nat + 10
  }

  function Pow16(n: nat): (p: nat)
    ensures p > 0
  {
    if n == 0 then 1 else 16 * Pow16(n - 1)
  }

  /** The number a string of hexadecimal digits denotes. */
  function HexValue(s: string): nat
    requires Hex(s)
  {
    if s == [] then 0 else DigitValue(s[0]) * Pow16(|s| - 1) + HexValue(s[1..])
  }

  /** Go's `<` on strings. */
  predicate Less(a: string, b: string) {
    b != [] && (a == [] || a[0] < b[0] || (a[0] == b[0] && Less(a[1..], b[1..])))
  }

  predicate AtLeast(a: string, b: string) {
    !Less(a, b)
  }

  lemma {:induction false} HexBound(s: string)
    requires Hex(s)
    ensures HexValue(s) < Pow16(|s|)
  {
    if s != [] {
      HexBound(s[1..]);
      LeadingDigitDecides(DigitValue(s[0]), 16, Pow16(|s| - 1), HexValue(s[1..]), 0);
    }
  }

  /** On hexadecimal strings of one length, string order is numeric order. */
  lemma {:induction false} LexIsNumeric(a: string, b: string)
    requires Hex(a) && Hex(b) && |a| == |b|
    ensures Less(a, b) <==> HexValue(a) < HexValue(b)
  {
    if a != [] {
      LexIsNumeric(a[1..], b[1..]);
      HexBound(a[1..]);
      HexBound(b[1..]);
      var p := Pow16(|a| - 1);
      if a[0] < b[0] {
        LeadingDigitDecides(DigitValue(a[0]), DigitValue(b[0]), p, HexValue(a[1..]), HexValue(b[1..]));
      } else if b[0] < a[0] {
        LeadingDigitDecides(DigitValue(b[0]), DigitValue(a[0]), p, HexValue(b[1..]), HexValue(a[1..]));
      }
    }
  }

  lemma LeadingDigitDecides(x: nat, y: nat, p: nat, restX: nat, restY: nat)
    requires x < y && restX < p
    ensures x * p + restX < y * p + restY
  {
    assert (x + 1) * p <= y * p;
  }

  // ------------------------------------------------------- archived files

  /** A WAL segment: eight digits of timeline, sixteen of position. */
  predicate SegmentName(s: string) {
    |s| == 24 && Hex(s)
  }

  /** A backup label, `<segment>.<offset>.backup`. */
  predicate BackupLabel(s: string) {
    |s| == 40 && Hex(s[..24]) && s[24] == '.' && Hex(s[25..33]) && s[33..] == ".backup"
  }

  function Timeline(seg: string): nat
    requires SegmentName(seg)
  {
    HexValue(seg[..8])
  }

  function Position(seg: string): nat
    requires SegmentName(seg)
  {
    HexValue(seg[8..])
  }

  datatype Archived = Through(seg: string) | Unknown | TimelineChanged

  /** How far the report says the archive reaches, for a point in segment want: a
      label is archived after the segment it names, and any other file says
      nothing. */
  function ArchivedSegment(last: string, want: string): Archived
    requires SegmentName(want)
  {
    if !SegmentName(last) && !BackupLabel(last) then Unknown
    else if last[..8] != want[..8] then TimelineChanged
    else Through(last[..24])
  }

  /** What the report names, independently of the comparison: the segment, or the
      segment of a backup label. */
  function Named(last: string): Option<string> {
    if SegmentName(last) then Some(last)
    else if BackupLabel(last) then Some(last[..24])
    else None
  }

  /** The report proves want archived: it names a segment of the same timeline at or
      past its position. */
  predicate Covers(last: string, want: string)
    requires SegmentName(want)
  {
    Named(last).Some? && SegmentName(Named(last).value)
    && Timeline(Named(last).value) == Timeline(want) && Position(Named(last).value) >= Position(want)
  }

  lemma {:induction false} HexInjective(a: string, b: string)
    requires Hex(a) && Hex(b) && |a| == |b| && HexValue(a) == HexValue(b)
    ensures a == b
  {
    if a != [] {
      LexIsNumeric(a, b);
      LexIsNumeric(b, a);
      HexBound(a[1..]);
      HexBound(b[1..]);
      assert a[0] == b[0];
      HexInjective(a[1..], b[1..]);
    }
  }

  lemma {:induction false} LessAfterCommonPrefix(p: string, a: string, b: string)
    ensures Less(p + a, p + b) <==> Less(a, b)
  {
    if p == [] {
      assert p + a == a && p + b == b;
    } else {
      LessAfterCommonPrefix(p[1..], a, b);
      assert (p + a)[1..] == p[1..] + a && (p + b)[1..] == p[1..] + b;
    }
  }

  /** The barrier's test on the two strings is exactly the numeric one. */
  lemma TestIsExact(last: string, want: string)
    requires SegmentName(want)
    ensures ArchivedSegment(last, want).Through? && AtLeast(ArchivedSegment(last, want).seg, want) <==> Covers(last, want)
    ensures ArchivedSegment(last, want).TimelineChanged? <==>
              Named(last).Some? && SegmentName(Named(last).value) && Timeline(Named(last).value) != Timeline(want)
  {
    if Named(last).Some? {
      var seg := Named(last).value;
      assert seg == last[..24] && Hex(seg[..8]) && seg[..8] == last[..8];
      if HexValue(seg[..8]) == HexValue(want[..8]) { HexInjective(seg[..8], want[..8]); }
      assert seg == seg[..8] + seg[8..] && want == want[..8] + want[8..];
      if seg[..8] == want[..8] {
        LessAfterCommonPrefix(want[..8], seg[8..], want[8..]);
        LexIsNumeric(seg[8..], want[8..]);
      }
    }
  }

  /** A timeline history file never counts, although as a string it sorts above every
      segment of the timelines before it. */
  lemma HistoryFileNeverCounts(digits: string, want: string)
    requires |digits| == 8 && Hex(digits) && SegmentName(want)
    ensures !Covers(digits + ".history", want)
    ensures HexValue(want[..8]) < HexValue(digits) ==> AtLeast(digits + ".history", want)
  {
    var last := digits + ".history";
    assert |last| == 16;
    if HexValue(want[..8]) < HexValue(digits) {
      LexIsNumeric(want[..8], digits);
      assert want == want[..8] + want[8..];
      LessExtends(want[..8], digits, want[8..], ".history");
      LessAsymmetric(want, last);
    }
  }

  lemma {:induction false} LessExtends(a: string, b: string, x: string, y: string)
    requires |a| == |b| && Less(a, b)
    ensures Less(a + x, b + y)
  {
    if a[0] == b[0] {
      LessExtends(a[1..], b[1..], x, y);
      assert (a + x)[1..] == a[1..] + x && (b + y)[1..] == b[1..] + y;
    }
  }

  lemma {:induction false} LessAsymmetric(a: string, b: string)
    requires Less(a, b)
    ensures !Less(b, a)
  {
    if a != [] && a[0] == b[0] { LessAsymmetric(a[1..], b[1..]); }
  }

  // -------------------------------------------------------- awaitArchived

  /** One answer of a group's archiver, or the error it gave instead. */
  datatype Report = Last(file: string) | ReportError

  datatype Waited = AllArchived | GroupError(g: nat) | LeftTimeline(g: nat) | DeadlinePassed(g: nat)

  /** Some answer of group g proves its point archived. */
  ghost predicate Proved(poll: (nat, nat) -> Report, g: nat, want: string)
    requires SegmentName(want)
  {
    exists n: nat :: poll(g, n).Last? && Covers(poll(g, n).file, want)
  }

  /** Polls each group in turn until its archive covers its point.  poll(g, n) is the
      n-th answer of the run, asked of group g; the deadline, which all groups share,
      passes after `budget` of them.  A group that has left its timeline ends the wait at
      once, and after the deadline each group is asked at most once. */
  method AwaitArchived(points: seq<string>, poll: (nat, nat) -> Report, budget: nat) returns (r: Waited, polls: nat)
    requires forall i | 0 <= i < |points| :: SegmentName(points[i])
    ensures r.AllArchived? ==> forall i | 0 <= i < |points| :: Proved(poll, i, points[i])
    ensures r.LeftTimeline? ==>
              && r.g < |points|
              && exists n: nat :: poll(r.g, n).Last? && ArchivedSegment(poll(r.g, n).file, points[r.g]).TimelineChanged?
    ensures r.DeadlinePassed? ==>
              && r.g < |points|
              && exists n: nat :: n >= budget && poll(r.g, n).Last? && !Covers(poll(r.g, n).file, points[r.g])
                                  && !ArchivedSegment(poll(r.g, n).file, points[r.g]).TimelineChanged?
    ensures r.GroupError? ==> r.g < |points| && exists n: nat :: poll(r.g, n) == ReportError
    ensures polls <= budget + |points|
  {
    var n: nat := 0;
    for i := 0 to |points|
      invariant n <= budget + i
      invariant forall j | 0 <= j < i :: Proved(poll, j, points[j])
    {
      while true
        invariant n <= budget + i
        decreases budget + 1 - n
      {
        var report := poll(i, n);
        if report.ReportError? { return GroupError(i), n + 1; }
        TestIsExact(report.file, points[i]);
        match ArchivedSegment(report.file, points[i]) {
          case TimelineChanged => return LeftTimeline(i), n + 1;
          case Through(seg) =>
            if AtLeast(seg, points[i]) {
              assert Proved(poll, i, points[i]);
              n := n + 1;
              break;
            }
          case Unknown =>
        }
        if n >= budget { return DeadlinePassed(i), n + 1; }
        n := n + 1;
      }
    }
    r, polls := AllArchived, n;
  }
}
