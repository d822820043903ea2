/**
 The int64 key space cut into ranges: the checks over a set of ranges, the search for
 a key's range, the even split, and the three forms a range is written down in: the
 row filter of a publication, the int8range literal, and the catalog row it reads
 back as.  Every intermediate value of type Key is an int64, so nothing overflows
 unless a wrap-around is written out.
 */
module KeyRanges {
  import opened Common

  const MIN: int := -0x8000_0000_0000_0000
  const MAX: int := 0x7fff_ffff_ffff_ffff
  const KEYS: int := 0x1_0000_0000_0000_0000

  type Key = x: int | MIN <= x <= MAX

  datatype Range = Range(start: Key, end: Key)

  predicate Contains(r: Range, id: Key) {
    r.start <= id <= r.end
  }

  // ------------------------------------------------------- sets of ranges

  predicate Proper(s: seq<Range>) {
    forall i | 0 <= i < |s| :: s[i].start <= s[i].end
  }

  /** What Validate checks: proper, from the bottom to the top, each range beginning
      where the one before it ended. */
  predicate Chain(s: seq<Range>) {
    && s != [] && Proper(s)
    && s[0].start == MIN && s[|s|-1].end == MAX
    && forall i | 0 <= i < |s| - 1 :: Joins(s[i], s[i+1])
  }

  predicate Joins(a: Range, b: Range) {
    a.end != MAX && b.start == a.end + 1
  }

  method Validate(s: seq<Range>) returns (ok: bool)
    ensures ok <==> Chain(s)
  {
    if |s| == 0 {
      return false;
    }
    for i := 0 to |s|
      invariant Proper(s[..i])
    {
      if s[i].start > s[i].end {
        assert !Proper(s);
        return false;
      }
      assert s[..i+1] == s[..i] + [s[i]];
    }
    assert s[..|s|] == s;
    if s[0].start != MIN {
      return false;
    }
    for i := 1 to |s|
      invariant forall j | 0 <= j < i - 1 :: Joins(s[j], s[j+1])
    {
      if s[i-1].end == MAX || s[i].start != s[i-1].end + 1 {
        assert !Joins(s[i-1], s[i-1+1]);
        return false;
      }
    }
    return s[|s|-1].end == MAX;
  }

  /** Each key lies in exactly one range, and the ranges are in order. */
  ghost predicate Partition(s: seq<Range>) {
    && Proper(s)
    && (forall i, j | 0 <= i < j < |s| :: s[i].start <= s[j].start)
    && (forall id: Key :: Held(s, id))
    && (forall i, j | 0 <= i < j < |s| :: Apart(s[i], s[j]))
  }

  predicate Held(s: seq<Range>, id: Key) {
    exists i | 0 <= i < |s| :: Contains(s[i], id)
  }

  predicate Apart(a: Range, b: Range) {
    a.end < b.start || b.end < a.start
  }

  lemma {:induction false} ChainAscends(s: seq<Range>, i: nat, j: nat)
    requires Chain(s) && i < j < |s|
    ensures s[i].end < s[j].start
    decreases j
  {
    assert Joins(s[j-1], s[j-1+1]);
    if i < j - 1 {
      ChainAscends(s, i, j - 1);
    }
  }

  /** The first range, from i on, that reaches the key. */
  lemma {:induction false} ChainCovers(s: seq<Range>, i: nat, id: Key) returns (k: nat)
    requires Chain(s) && i < |s| && s[i].start <= id
    ensures i <= k < |s| && Contains(s[k], id)
    decreases |s| - i
  {
    if id <= s[i].end {
      k := i;
    } else {
      assert i < |s| - 1 ==> Joins(s[i], s[i+1]);
      k := ChainCovers(s, i + 1, id);
    }
  }

  lemma ChainIsPartition(s: seq<Range>)
    requires Chain(s)
    ensures Partition(s)
  {
    forall i, j | 0 <= i < j < |s| ensures s[i].start <= s[j].start && Apart(s[i], s[j]) {
      ChainAscends(s, i, j);
    }
    forall id: Key ensures Held(s, id) {
      var k := ChainCovers(s, 0, id);
    }
  }

  lemma PartitionAscends(s: seq<Range>, i: nat, j: nat)
    requires Partition(s) && i < j < |s|
    ensures s[i].end < s[j].start
  {
    assert Apart(s[i], s[j]) && s[i].start <= s[j].start;
  }

  lemma PartitionStartsLow(s: seq<Range>)
    requires Partition(s)
    ensures s != [] && s[0].start == MIN && s[|s|-1].end == MAX
  {
    assert Held(s, MIN) && Held(s, MAX);
    var lo :| 0 <= lo < |s| && Contains(s[lo], MIN);
    if lo > 0 {
      PartitionAscends(s, 0, lo);
    }
    var hi :| 0 <= hi < |s| && Contains(s[hi], MAX);
    if hi < |s| - 1 {
      PartitionAscends(s, hi, |s| - 1);
    }
  }

  lemma PartitionIsContiguous(s: seq<Range>, i: nat)
    requires Partition(s) && 0 < i < |s|
    ensures Joins(s[i-1], s[i])
  {
    PartitionAscends(s, i - 1, i);
    forall k: nat | k < i - 1 ensures s[k].end < s[i-1].start {
      PartitionAscends(s, k, i - 1);
    }
    forall k: nat | i < k < |s| ensures s[i].end < s[k].start {
      PartitionAscends(s, i, k);
    }
    var next: Key := s[i-1].end + 1;
    assert Held(s, next);
    var k :| 0 <= k < |s| && Contains(s[k], next);
  }

  /** A set of ranges passes the checks exactly when it cuts the key space into pieces:
      every key in one range and no other, in order. */
  lemma ValidIffPartition(s: seq<Range>)
    ensures Chain(s) <==> Partition(s)
  {
    if Chain(s) {
      ChainIsPartition(s);
    }
    if Partition(s) {
      PartitionStartsLow(s);
      forall i: nat | i < |s| - 1 ensures Joins(s[i], s[i+1]) {
        PartitionIsContiguous(s, i + 1);
      }
    }
  }

  lemma OneRangeOnly(s: seq<Range>, i: nat, j: nat, id: Key)
    requires Chain(s) && i < |s| && j < |s| && Contains(s[i], id) && Contains(s[j], id)
    ensures i == j
  {
    if i < j {
      ChainAscends(s, i, j);
    } else if j < i {
      ChainAscends(s, j, i);
    }
  }

  /** The binary search finds the one range that holds the key. */
  method Locate(s: seq<Range>, id: Key) returns (at: nat)
    requires Chain(s)
    ensures at < |s| && Contains(s[at], id)
    ensures forall i: nat | i < |s| :: Contains(s[i], id) ==> i == at
  {
    var lo, hi := 0, |s|;
    while lo < hi
      invariant 0 <= lo <= hi <= |s|
      invariant lo > 0 ==> s[lo-1].end < id
      invariant hi < |s| ==> s[hi].end >= id
    {
      var mid := (lo + hi) / 2;
      if s[mid].end >= id {
        hi := mid;
      } else {
        lo := mid + 1;
      }
    }
    at := lo;
    forall i: nat | i < |s| && Contains(s[i], id) ensures i == at {
      OneRangeOnly(s, i, at, id);
    }
  }

  /** The home shard's successor is the range that holds key 0. */
  method HomeTarget(s: seq<Range>) returns (at: nat)
    requires Chain(s)
    ensures at < |s| && s[at].start <= 0 <= s[at].end
  {
    at := Locate(s, 0);
  }

  // -------------------------------------------------------- the even split

  function Wrap(x: int): (r: int)
    ensures 0 <= r < KEYS
    ensures 0 <= x < KEYS ==> r == x
  {
    x % KEYS
  }

  /** An offset from the bottom of the key space as a signed key. */
  function FromOffset(u: int): Key
    requires 0 <= u < KEYS
  {
    u + MIN
  }

  function SizeOf(r: Range): int {
    r.end - r.start + 1
  }

  /** Where range i of n begins. */
  function Offset(i: nat, width: int, rem: int): int {
    i * width + if i < rem then i else rem
  }

  lemma OffsetStep(i: nat, width: int, rem: int)
    requires rem >= 0
    ensures Offset(i + 1, width, rem) == Offset(i, width, rem) + width + if i < rem then 1 else 0
  {
    assert (i + 1) * width == i * width + width;
  }

  lemma OffsetBound(i: nat, n: nat, width: int, rem: int)
    requires i < n && width >= 1 && 0 <= rem < n && n * width + rem == KEYS
    ensures 0 <= Offset(i, width, rem) && Offset(i + 1, width, rem) <= KEYS
  {
    OffsetStep(i, width, rem);
    Positive(n - 1 - i, width);
    Positive(i, width);
    assert n * width == (i + 1) * width + (n - 1 - i) * width;
  }

  lemma Positive(a: nat, b: int)
    requires b >= 0
    ensures a * b >= 0
  {
  }

  /** Division of the number of keys, which a 64-bit word does not hold, from the
      division of one less. */
  lemma WidthAndRest(n: nat) returns (width: int, rem: int)
    requires 0 < n < KEYS
    ensures n * width + rem == KEYS && 0 <= rem < n && width >= 1
    ensures var w, r := (KEYS - 1) / n, (KEYS - 1) % n + 1;
      if r == n then width == w + 1 && rem == 0 else width == w && rem == r
  {
    var w, r := (KEYS - 1) / n, (KEYS - 1) % n + 1;
    assert n * w + (r - 1) == KEYS - 1;
    if r == n {
      width, rem := w + 1, 0;
      assert n * (w + 1) == n * w + n;
    } else {
      width, rem := w, r;
    }
    assert width <= 0 ==> n * width <= 0;
  }

  predicate SplitSoFar(out: seq<Range>, width: int, rem: int) {
    && (forall j: nat | j < |out| :: SizeOf(out[j]) == width + if j < rem then 1 else 0)
    && (forall j: nat | j < |out| :: out[j].start == MIN + Offset(j, width, rem))
  }

  /** One turn of the loop in 64-bit arithmetic, from the true offset. */
  lemma WrappedTurn(start: int, width: int, extra: int)
    requires 0 <= start && 0 <= extra <= 1 && width >= 1 && start + width + extra <= KEYS
    ensures var size := if extra == 1 then Wrap(Wrap(width) + 1) else Wrap(width);
      var end := Wrap(Wrap(Wrap(start) + size) - 1);
      end == start + width + extra - 1 && Wrap(end + 1) == Wrap(start + width + extra) && Wrap(start) == start
  {
    if width == KEYS {
      assert Wrap(width) == 0;
    }
    var size := if extra == 1 then Wrap(Wrap(width) + 1) else Wrap(width);
    if start + width + extra == KEYS {
      assert Wrap(KEYS) == 0 && Wrap(-1) == KEYS - 1;
    }
  }

  /** n ranges that cut the key space, the sizes differing by at most one and the larger
      ones first; in 64-bit arithmetic, which wraps around for one range and at the
      end.  Refused for no ranges. */
  method Split(n: int) returns (r: Option<seq<Range>>)
    requires n <= MAX
    ensures r.Some? <==> n > 0
    ensures r.Some? ==> |r.value| == n && Chain(r.value)
    ensures r.Some? ==> forall i, j | 0 <= i < j < n :: SizeOf(r.value[j]) <= SizeOf(r.value[i]) <= SizeOf(r.value[j]) + 1
  {
    if n <= 0 {
      return None;
    }
    ghost var width0, rem0 := WidthAndRest(n);
    WidthFits(n, width0, rem0);
    var width, rem := (KEYS - 1) / n, (KEYS - 1) % n + 1;
    if rem == n {
      width, rem := Wrap(width + 1), 0;
    }
    assert rem == rem0 && width == Wrap(width0);
    var out := Cut(n, width, rem, width0);
    SplitIsChain(out, width0, rem0);
    return Some(out);
  }

  method Cut(n: nat, width: int, rem: int, ghost width0: int) returns (out: seq<Range>)
    requires 0 <= rem < n && width0 >= 1 && n * width0 + rem == KEYS && width == Wrap(width0)
    ensures |out| == n && SplitSoFar(out, width0, rem)
  {
    out := [];
    var start := 0;
    for i := 0 to n
      invariant |out| == i && start == Wrap(Offset(i, width0, rem))
      invariant SplitSoFar(out, width0, rem)
    {
      var size := width;
      if i < rem {
        size := Wrap(size + 1);
      }
      OffsetStep(i, width0, rem);
      OffsetBound(i, n, width0, rem);
      WrappedTurn(Offset(i, width0, rem), width0, if i < rem then 1 else 0);
      var end := Wrap(Wrap(start + size) - 1);
      out := out + [Range(FromOffset(start), FromOffset(end))];
      start := Wrap(end + 1);
    }
  }

  lemma WidthFits(n: nat, width: int, rem: int)
    requires 0 < n && width >= 1 && 0 <= rem && n * width + rem == KEYS
    ensures width <= KEYS
  {
    Positive(n - 1, width);
    assert n * width == (n - 1) * width + width;
  }

  lemma SplitIsChain(out: seq<Range>, width: int, rem: int)
    requires out != [] && width >= 1 && 0 <= rem < |out| && SplitSoFar(out, width, rem) && Offset(|out|, width, rem) == KEYS
    ensures Chain(out)
  {
    forall i: nat | i < |out| ensures out[i].end == MIN + Offset(i + 1, width, rem) - 1 {
      OffsetStep(i, width, rem);
      assert SizeOf(out[i]) == width + if i < rem then 1 else 0;
    }
    assert Offset(0, width, rem) == 0;
    assert out[|out|-1].end == MAX;
    assert forall i: nat | i < |out| :: SizeOf(out[i]) >= 1;
    forall i: nat | i < |out| - 1 ensures Joins(out[i], out[i+1]) {
      assert out[i+1].start == MIN + Offset(i + 1, width, rem);
    }
  }

  // ------------------------------------------------------------- merging

  /** The adjacent ranges i..j replaced by one. */
  function Merge(s: seq<Range>, i: int, j: int): Option<seq<Range>> {
    if i < 0 || j >= |s| || i >= j || !Chain(s) then None
    else Some(s[..i] + [Range(s[i].start, s[j].end)] + s[j+1..])
  }

  /** The merged set still cuts the key space, every range outside the merge is the
      same, and the new one holds the keys of those it replaces. */
  lemma MergeKeepsTheRest(s: seq<Range>, i: int, j: int)
    requires 0 <= i < j < |s| && Chain(s)
    ensures Merge(s, i, j).Some?
    ensures var m := Merge(s, i, j).value;
      && |m| == |s| - (j - i) && Chain(m)
      && (forall k | 0 <= k < i :: m[k] == s[k]) && (forall k | j < k < |s| :: m[k - (j - i)] == s[k])
      && forall id: Key :: Contains(m[i], id) <==> exists k | i <= k <= j :: Contains(s[k], id)
  {
    var m := Merge(s, i, j).value;
    ChainAscends(s, i, j);
    forall k: nat | k < |m| - 1 ensures Joins(m[k], m[k+1]) {
      if k < i {
        assert Joins(s[k], s[k+1]);
      } else {
        assert Joins(s[k + (j - i)], s[k + (j - i) + 1]);
      }
    }
    forall id: Key ensures Contains(m[i], id) <==> exists k | i <= k <= j :: Contains(s[k], id) {
      MergedHolds(s, i, j, id);
    }
  }

  lemma MergedHolds(s: seq<Range>, i: nat, j: nat, id: Key)
    requires i < j < |s| && Chain(s)
    ensures s[i].start <= id <= s[j].end <==> exists k | i <= k <= j :: Contains(s[k], id)
  {
    forall k: nat | i < k <= j ensures s[i].start <= s[k].start {
      ChainAscends(s, i, k);
    }
    forall k: nat | i <= k < j ensures s[k].end <= s[j].end {
      ChainAscends(s, k, j);
    }
    if s[i].start <= id <= s[j].end {
      var k := ChainCovers(s, i, id);
      if j < k {
        ChainAscends(s, j, k);
      }
    }
  }

  // -------------------------------------------------- the ranges on paper

  /** A row filter's conjuncts; none of them is the filter true. */
  datatype Bound = AtLeast(key: Key) | AtMost(key: Key)

  predicate Satisfies(b: Bound, id: Key) {
    match b
    case AtLeast(k) => id >= k
    case AtMost(k) => id <= k
  }

  function RangeFilter(r: Range): seq<Bound> {
    (if r.start != MIN then [AtLeast(r.start)] else []) + (if r.end != MAX then [AtMost(r.end)] else [])
  }

  predicate Passes(filter: seq<Bound>, id: Key) {
    forall b | b in filter :: Satisfies(b, id)
  }

  lemma FilterDenotes(r: Range, id: Key)
    ensures Passes(RangeFilter(r), id) <==> Contains(r, id)
  {
    var f := RangeFilter(r);
    if r.start != MIN {
      assert AtLeast(r.start) in f;
    }
    if r.end != MAX {
      assert AtMost(r.end) in f;
    }
  }

  /** For every set of ranges that covers the key space, each key passes the filter of
      exactly one of them. */
  lemma ExactlyOneFilter(s: seq<Range>, id: Key)
    requires Chain(s)
    ensures exists i | 0 <= i < |s| :: Passes(RangeFilter(s[i]), id)
    ensures forall i, j | 0 <= i < |s| && 0 <= j < |s| && Passes(RangeFilter(s[i]), id) && Passes(RangeFilter(s[j]), id) :: i == j
  {
    forall i | 0 <= i < |s| ensures Passes(RangeFilter(s[i]), id) <==> Contains(s[i], id) {
      FilterDenotes(s[i], id);
    }
    var k := ChainCovers(s, 0, id);
    forall i, j | 0 <= i < |s| && 0 <= j < |s| && Passes(RangeFilter(s[i]), id) && Passes(RangeFilter(s[j]), id) ensures i == j {
      OneRangeOnly(s, i, j, id);
    }
  }

  /** Decimal digits, the most significant first. */
  function Digits(n: nat): (r: string)
    ensures r != [] && forall c | c in r :: '0' <= c <= '9'
  {
    var last := [('0' as int + n % 10) as char];
    if n < 10 then last else Digits(n / 10) + last
  }

  function ParseDigits(s: string): (r: Option<nat>) {
    if s == [] then Some(0)
    else
      var c, rest := s[|s|-1], ParseDigits(s[..|s|-1]);
      if rest.None? || c < '0' || '9' < c then None else Some(10 * rest.value + (c as int - '0' as int))
  }

  lemma {:induction false} DigitsRoundTrip(n: nat)
    ensures ParseDigits(Digits(n)) == Some(n)
  {
    var s := Digits(n);
    assert s[|s|-1] == ('0' as int + n % 10) as char;
    if n < 10 {
      assert s[..|s|-1] == [];
    } else {
      DigitsRoundTrip(n / 10);
      assert s[..|s|-1] == Digits(n / 10);
    }
  }

  function Decimal(n: int): string {
    if n < 0 then "-" + Digits(-n) else Digits(n)
  }

  /** An int8 in decimal; a number outside int64 is refused. */
  function ParseInt8(s: string): Option<Key> {
    var negative := s != [] && s[0] == '-';
    var body := if negative then s[1..] else s;
    var digits := if body == [] then None else ParseDigits(body);
    if digits.None? then None
    else
      var n: int := if negative then -(digits.value as int) else digits.value;
      if MIN <= n <= MAX then Some(n) else None
  }

  lemma SignedRoundTrip(s: string, m: nat, negative: bool)
    requires s != [] && s[0] != '-' && ParseDigits(s) == Some(m)
    requires MIN <= (if negative then -(m as int) else m) <= MAX
    ensures ParseInt8(if negative then "-" + s else s) == Some(if negative then -(m as int) else m)
  {
    assert ("-" + s)[1..] == s;
  }

  lemma DecimalRoundTrip(n: Key)
    ensures ParseInt8(Decimal(n)) == Some(n) && ',' !in Decimal(n) && Decimal(n) != []
  {
    var m: nat := if n < 0 then -(n as int) else n;
    var s := Digits(m);
    assert s[0] in s;
    DigitsRoundTrip(m);
    SignedRoundTrip(s, m, n < 0);
  }

  /** The int8range literal, unbounded at the ends of the key space. */
  function Int8Range(r: Range): string {
    "[" + (if r.start != MIN then Decimal(r.start) else "") + "," + (if r.end != MAX then Decimal(r.end + 1) else "") + ")"
  }

  /** A range as the catalog stores it: inclusive below, exclusive above, either end
      absent for unbounded. */
  datatype Row = Row(shard: int, lower: Option<Key>, upper: Option<Key>)

  predicate InRow(row: Row, id: Key) {
    (row.lower.None? || row.lower.value <= id) && (row.upper.None? || id < row.upper.value)
  }

  function Comma(s: string): (i: nat)
    ensures i <= |s| && (i < |s| ==> s[i] == ',') && ',' !in s[..i]
  {
    if s == [] || s[0] == ',' then 0
    else
      var i := 1 + Comma(s[1..]);
      assert s[..i] == [s[0]] + s[1..][..i-1];
      i
  }

  function ParseEnd(s: string): Option<Option<Key>> {
    if s == "" then Some(None)
    else
      var k := ParseInt8(s);
      if k.None? then None else Some(k)
  }

  /** What PostgreSQL makes of a literal of this form. */
  function ParseRange(shard: int, s: string): Option<Row> {
    if |s| < 3 || s[0] != '[' || s[|s|-1] != ')' then None
    else
      var inner := s[1..|s|-1];
      var c := Comma(inner);
      if c == |inner| then None
      else
        var lower, upper := ParseEnd(inner[..c]), ParseEnd(inner[c+1..]);
        if lower.None? || upper.None? then None else Some(Row(shard, lower.value, upper.value))
  }

  lemma {:induction false} CommaBetween(a: string, b: string)
    requires ',' !in a
    ensures Comma(a + "," + b) == |a|
  {
    if a == [] {
      assert (a + "," + b)[0] == ',';
    } else {
      assert (a + "," + b)[1..] == a[1..] + "," + b;
      CommaBetween(a[1..], b);
    }
  }

  /** The row a range is stored as. */
  function Stored(shard: int, r: Range): Row {
    Row(shard, if r.start != MIN then Some(r.start) else None, if r.end != MAX then Some(r.end + 1) else None)
  }

  /** One end of the literal: the key, or nothing when unbounded. */
  function End(k: Option<Key>): string {
    if k.Some? then Decimal(k.value) else ""
  }

  lemma EndRoundTrip(k: Option<Key>)
    ensures ParseEnd(End(k)) == Some(k) && ',' !in End(k)
  {
    if k.Some? {
      DecimalRoundTrip(k.value);
    }
  }

  lemma EndsApart(shard: int, lo: string, hi: string)
    requires ',' !in lo && ParseEnd(lo).Some? && ParseEnd(hi).Some?
    ensures ParseRange(shard, "[" + lo + "," + hi + ")") == Some(Row(shard, ParseEnd(lo).value, ParseEnd(hi).value))
  {
    var s, inner := "[" + lo + "," + hi + ")", lo + "," + hi;
    assert s[1..|s|-1] == inner;
    CommaBetween(lo, hi);
    assert inner[..|lo|] == lo && inner[|lo|+1..] == hi;
  }

  lemma LiteralRoundTrip(shard: int, r: Range)
    ensures ParseRange(shard, Int8Range(r)) == Some(Stored(shard, r))
  {
    var row := Stored(shard, r);
    EndRoundTrip(row.lower);
    EndRoundTrip(row.upper);
    EndsApart(shard, End(row.lower), End(row.upper));
  }

  /** An int64 less one, wrapping at the bottom. */
  function Less1(k: Key): Key {
    if k == MIN then MAX else k - 1
  }

  function RangeOf(row: Row): Range {
    Range(if row.lower.Some? then row.lower.value else MIN, if row.upper.Some? then Less1(row.upper.value) else MAX)
  }

  /** The filter, the literal and the range read back denote one set of keys. */
  lemma OneMeaning(shard: int, r: Range, id: Key)
    ensures var row := ParseRange(shard, Int8Range(r));
      && row.Some? && RangeOf(row.value) == r && row.value.shard == shard
      && (InRow(row.value, id) <==> Contains(r, id))
      && (Passes(RangeFilter(r), id) <==> Contains(r, id))
  {
    LiteralRoundTrip(shard, r);
    FilterDenotes(r, id);
  }

  /** A row reads back as the keys it holds exactly unless its upper bound is the bottom
      of the key space: that one holds nothing and reads back as reaching the top. */
  lemma ReadBackIff(row: Row)
    ensures (forall id: Key :: InRow(row, id) <==> Contains(RangeOf(row), id)) <==> row.upper != Some(MIN)
  {
    if row.upper == Some(MIN) {
      assert !InRow(row, MAX) && Contains(RangeOf(row), MAX);
    }
  }

  method RangeSet(rows: seq<Row>) returns (out: seq<Range>)
    ensures |out| == |rows| && forall i | 0 <= i < |rows| :: out[i] == RangeOf(rows[i])
  {
    out := [];
    for i := 0 to |rows|
      invariant |out| == i && forall j | 0 <= j < i :: out[j] == RangeOf(rows[j])
    {
      var start, end := MIN, MAX;
      if rows[i].lower.Some? {
        start := rows[i].lower.value;
      }
      if rows[i].upper.Some? {
        end := if rows[i].upper.value == MIN then MAX else rows[i].upper.value - 1;
      }
      out := out + [Range(start, end)];
    }
  }

  function Ranges(rows: seq<Row>): (r: seq<Range>)
    ensures |r| == |rows| && forall i | 0 <= i < |rows| :: r[i] == RangeOf(rows[i])
  {
    seq(|rows|, i requires 0 <= i < |rows| => RangeOf(rows[i]))
  }

  method ValidateShardRanges(rows: seq<Row>) returns (ok: bool)
    ensures ok <==> Chain(Ranges(rows)) && forall i | 0 <= i < |rows| :: rows[i].shard == i
  {
    var ranges := RangeSet(rows);
    assert ranges == Ranges(rows);
    var chain := Validate(ranges);
    if !chain {
      return false;
    }
    for i := 0 to |rows|
      invariant forall j | 0 <= j < i :: rows[j].shard == j
    {
      if rows[i].shard != i {
        return false;
      }
    }
    return true;
  }

  /** The rows of a materialised set: one per range, in key order. */
  predicate RowsOf(rows: seq<Row>, ranges: seq<Range>) {
    |rows| == |ranges| && forall i | 0 <= i < |ranges| :: rows[i] == Stored(i, ranges[i])
  }

  /** Either the set is refused and nothing is written, or its rows are written, and read
      back as the same ranges, valid, with the shard ids routing depends on. */
  method MaterializeShardSet(ranges: seq<Range>) returns (rows: Option<seq<Row>>)
    ensures rows.Some? <==> Chain(ranges)
    ensures rows.Some? ==> RowsOf(rows.value, ranges) && Ranges(rows.value) == ranges
    ensures rows.Some? ==> forall i | 0 <= i < |rows.value| :: rows.value[i].shard == i
  {
    var ok := Validate(ranges);
    if !ok {
      return None;
    }
    var out: seq<Row> := [];
    for i := 0 to |ranges|
      invariant RowsOf(out, ranges[..i])
    {
      assert ranges[..i+1] == ranges[..i] + [ranges[i]];
      LiteralRoundTrip(i, ranges[i]);
      out := out + [ParseRange(i, Int8Range(ranges[i])).value];
    }
    assert ranges[..|ranges|] == ranges;
    assert Ranges(out) == ranges;
    return Some(out);
  }
}
