/**
 One step of a migration on one shard, retried with backoff until it ends.
 */
module StepRetries {
  import opened Common
  import opened Migrations

  datatype Backoff = Backoff(min: int, max: int, total: int)

  /** Zero and negative bounds mean the defaults; milliseconds. */
  function Bounded(b: Backoff): (r: Backoff)
    ensures r.min > 0 && r.max > 0 && r.total > 0
    ensures b.min > 0 && b.max > 0 && b.total > 0 ==> r == b
  {
    Backoff(if b.min <= 0 then 500 else b.min, if b.max <= 0 then 30_000 else b.max, if b.total <= 0 then 300_000 else b.total)
  }

  /** The wait after the n-th transient failure: doubling, capped. */
  function Wait(b: Backoff, n: nat): int {
    if n == 0 then b.min else if 2 * Wait(b, n - 1) > b.max then b.max else 2 * Wait(b, n - 1)
  }

  function Least(b: Backoff): int {
    if b.min <= b.max then b.min else b.max
  }

  lemma {:induction false} WaitsAtLeast(b: Backoff, n: nat)
    requires b.min > 0 && b.max > 0
    ensures Wait(b, n) >= Least(b)
  {
    if n > 0 {
      WaitsAtLeast(b, n - 1);
    }
  }

  function Pow2(n: nat): nat {
    if n == 0 then 1 else 2 * Pow2(n - 1)
  }

  /** The wait doubles from the first one until the cap, and stays there. */
  lemma {:induction false} WaitsDoubleUpToTheCap(b: Backoff, n: nat)
    requires 0 < b.min <= b.max
    ensures Wait(b, n) == if Pow2(n) * b.min <= b.max then Pow2(n) * b.min else b.max
  {
    if n > 0 {
      WaitsDoubleUpToTheCap(b, n - 1);
      var w := Pow2(n - 1) * b.min;
      assert Pow2(n) * b.min == 2 * w;
    }
  }

  /** With no bounds given: half a second, then 1, 2, 4, 8, 16 and from then on 30 seconds. */
  lemma DefaultWaits(n: nat)
    ensures var b := Bounded(Backoff(0, 0, 0));
      b.total == 300_000 && Wait(b, n) == if n < 6 then Pow2(n) * 500 else 30_000
  {
    var b := Bounded(Backoff(0, 0, 0));
    WaitsDoubleUpToTheCap(b, n);
    assert Pow2(3) == 8 && Pow2(5) == 32 && Pow2(6) == 64;
    if n < 6 {
      Pow2Grows(n, 5);
    } else {
      Pow2Grows(6, n);
    }
  }

  lemma {:induction false} Pow2Grows(i: nat, j: nat)
    requires i <= j
    ensures Pow2(i) <= Pow2(j)
  {
    if i < j {
      Pow2Grows(i, j - 1);
    }
  }

  datatype Reply = Stored | Superseded | Unsaved

  /** What running the step came to: it applied, the shard has nothing to change, it
      failed for good, or in a way worth another attempt. */
  datatype Ran = Succeeded | NothingThere | Broke | Stumbled

  /** One attempt: the answer to recording it, and at which moment it came; the step
      itself; whether an error may have come after a commit; whether the process was
      cancelled; the answer to recording the retry; whether the wait was slept out; and
      whether the process leads after it, and at which moment that was asked. */
  datatype Attempt = Attempt(marked: Reply, markedAt: nat, ran: Ran, mayHaveRun: bool, cancelled: bool,
                             noted: Reply, woke: bool, leads: bool, checkedAt: nat)

  /** The attempts on one shard, with the clock at the start and after each of them. */
  datatype Tries = Tries(start: int, clock: nat -> int, attempt: nat -> Attempt)

  /** A step that could not be recorded was not run, which is worth another attempt. */
  function Tried(a: Attempt): Ran {
    if a.marked == Stored then a.ran else Stumbled
  }

  /** How one attempt that began in the state `prior` ends the loop, if it does. */
  function Decide(a: Attempt, prior: EntryState, elapsed: int, total: int): Option<EntryState> {
    var ran := Tried(a);
    if a.marked == Superseded then Some(prior)
    else if ran == Succeeded then Some(Applied)
    else if a.cancelled then Some(Running)
    else if ran == NothingThere then Some(Skipped)
    else if ran == Broke || elapsed >= total then Some(Failed)
    else if a.noted == Superseded || !a.woke || !a.leads then Some(Retrying)
    else None
  }

  function Prior(s0: EntryState, n: nat): EntryState {
    if n == 0 then s0 else Retrying
  }

  predicate Positive(b: Backoff) {
    b.min > 0 && b.max > 0 && b.total > 0
  }

  /** The clock is read after each attempt, and the wait in between was slept. */
  ghost predicate Slept(b: Backoff, clock: nat -> int) {
    forall n: nat :: clock(n + 1) >= clock(n) + Wait(b, n)
  }

  ghost predicate Timed(b: Backoff, x: Tries) {
    Positive(b) && Slept(b, x.clock) && x.start <= x.clock(0)
  }

  lemma {:induction false} TimePasses(b: Backoff, clock: nat -> int, n: nat)
    requires Positive(b) && Slept(b, clock)
    ensures clock(n) >= clock(0) + n * Least(b)
  {
    if n > 0 {
      TimePasses(b, clock, n - 1);
      WaitsAtLeast(b, n - 1);
      assert clock(n - 1 + 1) >= clock(n - 1) + Wait(b, n - 1);
      assert n * Least(b) == (n - 1) * Least(b) + Least(b);
    }
  }

  function CeilDiv(a: int, b: int): int
    requires b > 0
  {
    (a + b - 1) / b
  }

  lemma CeilDivCovers(a: int, b: int)
    requires a > 0 && b > 0
    ensures CeilDiv(a, b) * b >= a && CeilDiv(a, b) > 0
  {
    var q := (a + b - 1) / b;
    assert q * b + (a + b - 1) % b == a + b - 1;
    assert q <= 0 ==> q * b <= 0;
  }

  lemma CeilDivExact(k: nat, b: int)
    requires b > 0
    ensures CeilDiv(k * b, b) == k
  {
    var q, r := (k * b + b - 1) / b, (k * b + b - 1) % b;
    assert q * b + r == k * b + b - 1;
    assert (q - k) * b == b - 1 - r;
    assert q - k >= 1 ==> (q - k) * b >= b;
    assert q - k <= -1 ==> (q - k) * b <= -b;
  }

  // ------------------------------------------------ the loop as a function

  /** How attempt n ends the loop, if it does, for an entry found in the state s0. */
  function DecideAt(b: Backoff, s0: EntryState, x: Tries, n: nat): Option<EntryState> {
    Decide(x.attempt(n), Prior(s0, n), x.clock(n) - x.start, b.total)
  }

  /** The state the entry is left in, and how many attempts were made. */
  datatype Outcome = Outcome(state: EntryState, attempts: nat)

  /** The loop from attempt n on: time runs out for it. */
  ghost function RetryFrom(b: Backoff, s0: EntryState, x: Tries, n: nat): Outcome
    requires Timed(b, x)
    decreases b.total - n * Least(b)
  {
    var d := DecideAt(b, s0, x, n);
    if d.Some? then Outcome(d.value, n + 1)
    else
      OutOfTimeLater(b, x, n);
      RetryFrom(b, s0, x, n + 1)
  }

  lemma OutOfTimeLater(b: Backoff, x: Tries, n: nat)
    requires Timed(b, x) && x.clock(n) - x.start < b.total
    ensures b.total - n * Least(b) > b.total - (n + 1) * Least(b)
    ensures b.total - n * Least(b) >= 0
  {
    TimePasses(b, x.clock, n);
    assert (n + 1) * Least(b) == n * Least(b) + Least(b);
  }

  ghost function Retry(b: Backoff, s0: EntryState, x: Tries): Outcome
    requires Timed(b, x)
  {
    RetryFrom(b, s0, x, 0)
  }

  /** The loop goes on up to attempt n, which decides. */
  ghost predicate DecidedAt(b: Backoff, s0: EntryState, x: Tries, n: nat, state: EntryState) {
    DecideAt(b, s0, x, n) == Some(state) && forall i: nat | i < n :: DecideAt(b, s0, x, i) == None
  }

  lemma {:induction false} RetryIsFirst(b: Backoff, s0: EntryState, x: Tries, i: nat, n: nat, state: EntryState)
    requires Timed(b, x) && DecidedAt(b, s0, x, n, state) && i <= n
    ensures RetryFrom(b, s0, x, i) == Outcome(state, n + 1)
    decreases n - i
  {
    if i < n {
      RetryIsFirst(b, s0, x, i + 1, n, state);
    }
  }

  lemma {:induction false} RetryDecides(b: Backoff, s0: EntryState, x: Tries, i: nat)
    requires Timed(b, x) && forall j: nat | j < i :: DecideAt(b, s0, x, j) == None
    ensures var r := RetryFrom(b, s0, x, i); r.attempts > 0 && DecidedAt(b, s0, x, r.attempts - 1, r.state)
    decreases b.total - i * Least(b)
  {
    if DecideAt(b, s0, x, i).None? {
      OutOfTimeLater(b, x, i);
      RetryDecides(b, s0, x, i + 1);
    }
  }

  lemma {:induction false} RetryGoesOn(b: Backoff, s0: EntryState, x: Tries, i: nat, n: nat)
    requires Timed(b, x) && i <= n && forall j: nat | i <= j < n :: DecideAt(b, s0, x, j) == None
    ensures RetryFrom(b, s0, x, i).attempts > n
    decreases n - i
  {
    if i < n {
      RetryGoesOn(b, s0, x, i + 1, n);
    } else {
      CountsFrom(b, s0, x, n);
    }
  }

  lemma {:induction false} CountsFrom(b: Backoff, s0: EntryState, x: Tries, n: nat)
    requires Timed(b, x)
    ensures RetryFrom(b, s0, x, n).attempts > n
    decreases b.total - n * Least(b)
  {
    if DecideAt(b, s0, x, n).None? {
      OutOfTimeLater(b, x, n);
      CountsFrom(b, s0, x, n + 1);
    }
  }

  /** The step ends: at the first attempt that decides it, and within as many attempts
      as the shortest wait fits into the total. */
  method RunWithRetries(b0: Backoff, s0: EntryState, ran0: bool, x: Tries) returns (state: EntryState, ran: bool, attempts: nat)
    requires Timed(Bounded(b0), x)
    ensures Outcome(state, attempts) == Retry(Bounded(b0), s0, x)
    ensures 0 < attempts <= CeilDiv(Bounded(b0).total, Least(Bounded(b0))) + 1
    ensures Bounded(b0).min <= Bounded(b0).max ==> attempts <= CeilDiv(Bounded(b0).total, Bounded(b0).min) + 1
    ensures (exists i | 0 <= i < attempts - 1 :: MayHaveRun(x.attempt(i))) ==> ran
    ensures ran ==> ran0 || exists i | 0 <= i < attempts :: MayHaveRun(x.attempt(i))
  {
    var b := Bounded(b0);
    ghost var most := CeilDiv(b.total, Least(b)) + 1;
    CeilDivCovers(b.total, Least(b));
    attempts, state, ran := 0, s0, ran0;
    var done := false;
    while !done
      invariant if done then 0 < attempts <= most && DecidedAt(b, s0, x, attempts - 1, state)
                else attempts < most && state == Prior(s0, attempts) && forall i: nat | i < attempts :: DecideAt(b, s0, x, i) == None
      invariant (exists i | 0 <= i < (if done then attempts - 1 else attempts) :: MayHaveRun(x.attempt(i))) ==> ran
      invariant ran ==> ran0 || exists i | 0 <= i < attempts :: MayHaveRun(x.attempt(i))
      decreases !done, most - attempts
    {
      var now := x.clock(attempts);
      done, state, ran := RunOnce(x.attempt(attempts), state, ran, now - x.start >= b.total);
      assert done ==> DecidedAt(b, s0, x, attempts, state);
      if !done {
        InTime(b, x, attempts, most);
      }
      attempts := attempts + 1;
    }
    RetryIsFirst(b, s0, x, 0, attempts - 1, state);
  }

  lemma InTime(b: Backoff, x: Tries, n: nat, most: int)
    requires Timed(b, x) && x.clock(n) - x.start < b.total && most == CeilDiv(b.total, Least(b)) + 1
    ensures n + 1 < most
  {
    TimePasses(b, x.clock, n);
    CeilDivCovers(b.total, Least(b));
    Divides(n, most - 1, Least(b));
  }

  lemma Divides(n: nat, m: int, d: int)
    requires d > 0 && n * d < m * d
    ensures n < m
  {
  }

  /** The attempt may have reached the server and committed. */
  predicate MayHaveRun(a: Attempt) {
    a.marked == Stored && a.mayHaveRun
  }

  /** One turn of the loop: what the attempt leaves the entry in, and whether that is the
      end of it. */
  method RunOnce(a: Attempt, prior: EntryState, ran0: bool, timeUp: bool) returns (done: bool, state: EntryState, ran: bool)
    ensures var d := Decide(a, prior, if timeUp then 1 else 0, 1);
      if done then d == Some(state) else d == None && state == Retrying
    ensures ran ==> ran0 || MayHaveRun(a)
    ensures ran0 || (!done && MayHaveRun(a)) ==> ran
  {
    ran := ran0;
    if a.marked == Superseded {
      return true, prior, ran;
    }
    var outcome := if a.marked == Stored then a.ran else Stumbled;
    if outcome == Succeeded {
      return true, Applied, ran;
    }
    if a.cancelled {
      return true, Running, ran;
    }
    ran := ran || (a.marked == Stored && a.mayHaveRun);
    if outcome == NothingThere {
      return true, Skipped, ran;
    }
    if outcome == Broke || timeUp {
      return true, Failed, ran;
    }
    return a.noted == Superseded || !a.woke || !a.leads, Retrying, ran;
  }

  // --------------------------------------------------- what an end means

  /** Nothing came between the process and the attempt: no other leader, no cancellation. */
  predicate Led(a: Attempt) {
    a.marked != Superseded && !a.cancelled && a.noted != Superseded && a.woke && a.leads
  }

  /** The attempt stumbled in time and could be retried, but the process found that it no
      longer leads. */
  predicate FoundUnled(a: Attempt, elapsed: int, total: int) {
    && a.marked != Superseded && Tried(a) == Stumbled && !a.cancelled && elapsed < total
    && a.noted != Superseded && a.woke && !a.leads
  }

  /** How the deciding attempt left the entry: with its result, given up for want of time,
      or unfinished, and then why; as it was found, if another leader's term refused it, and
      running, if the process was cancelled. */
  lemma HowItEnds(b: Backoff, s0: EntryState, x: Tries)
    requires Timed(b, x) && !Final(s0)
    ensures var r := Retry(b, s0, x);
      && r.attempts > 0
      && var a, elapsed := x.attempt(r.attempts - 1), x.clock(r.attempts - 1) - x.start;
         && (r.state == Applied <==> a.marked == Stored && a.ran == Succeeded)
         && (r.state == Skipped <==> a.marked == Stored && a.ran == NothingThere && !a.cancelled)
         && (a.marked == Superseded ==> r.state == if r.attempts == 1 then s0 else Retrying)
         && (a.marked != Superseded && Tried(a) != Succeeded && a.cancelled ==> r.state == Running)
         && (r.state == Failed ==> Tried(a) == Broke || elapsed >= b.total)
         && (!Final(r.state) ==> a.marked == Superseded || a.cancelled || a.noted == Superseded || !a.woke || FoundUnled(a, elapsed, b.total))
         && (Led(a) ==> Final(r.state))
         && (FoundUnled(a, elapsed, b.total) ==> r.state == Retrying)
    ensures forall i: nat | i < Retry(b, s0, x).attempts - 1 ::
      Led(x.attempt(i)) && Tried(x.attempt(i)) == Stumbled && x.clock(i) - x.start < b.total
  {
    var r := Retry(b, s0, x);
    RetryDecides(b, s0, x, 0);
    forall i: nat | i < r.attempts - 1 ensures Led(x.attempt(i)) && Tried(x.attempt(i)) == Stumbled && x.clock(i) - x.start < b.total {
      assert DecideAt(b, s0, x, i) == None;
    }
  }

  // ------------------------------------------------- a cap below the minimum

  /** The time spent waiting before attempt n, when every sleep lasts exactly its wait. */
  function Waited(b: Backoff, n: nat): int {
    if n == 0 then 0 else Waited(b, n - 1) + Wait(b, n - 1)
  }

  lemma {:induction false} CappedWaits(b: Backoff, n: nat)
    requires 0 < b.max < b.min && n > 0
    ensures Wait(b, n) == b.max && Waited(b, n) == b.min + (n - 1) * b.max
  {
    if n > 1 {
      CappedWaits(b, n - 1);
      assert (n - 1) * b.max == (n - 2) * b.max + b.max;
    }
  }

  /** Attempts that all stumble, under a process that leads throughout. */
  const STUMBLE := Attempt(Stored, 0, Stumbled, true, false, Stored, true, true, 0)

  /** A cap below the first wait breaks the bound of ceil(total/min)+1 attempts: for any
      such pair there is a total for which the loop, on attempts that all stumble and with
      sleeps no longer than they must be, makes more. */
  lemma SmallCapAllowsMoreAttempts(min: int, max: int) returns (b: Backoff, x: Tries)
    requires 0 < max < min
    ensures b.min == min && b.max == max && Timed(b, x)
    ensures Retry(b, Pending, x).attempts > CeilDiv(b.total, b.min) + 1
  {
    var k := min + 1;
    b := Backoff(min, max, k * min);
    x := Stumbling(b);
    CeilDivExact(k, min);
    WaitedIsTimed(b, x);
    forall j: nat | j < k + 2 ensures DecideAt(b, Pending, x, j) == None {
      StumblesInTime(b, k, j);
    }
    RetryGoesOn(b, Pending, x, 0, k + 2);
  }

  /** Such attempts, with the clock at exactly the waits. */
  function Stumbling(b: Backoff): Tries {
    Tries(0, n requires n >= 0 => Waited(b, n), n => STUMBLE)
  }

  lemma StumblesInTime(b: Backoff, k: nat, j: nat)
    requires 0 < b.max < b.min < k && b.total == k * b.min && j <= k + 1
    ensures DecideAt(b, Pending, Stumbling(b), j) == None
  {
    WaitedGrows(b, j, k + 1);
    CappedWaits(b, k + 1);
    ShorterWaits(b.min, b.max, k);
  }

  lemma WaitedIsTimed(b: Backoff, x: Tries)
    requires Positive(b) && x.start == 0 && forall n: nat :: x.clock(n) == Waited(b, n)
    ensures Timed(b, x)
  {
  }

  lemma {:induction false} WaitedGrows(b: Backoff, i: nat, j: nat)
    requires b.min > 0 && b.max > 0 && i <= j
    ensures Waited(b, i) <= Waited(b, j)
    decreases j
  {
    if i < j {
      WaitedGrows(b, i, j - 1);
      WaitsAtLeast(b, j - 1);
    }
  }

  lemma ShorterWaits(min: int, max: int, k: nat)
    requires max < min < k
    ensures min + k * max < k * min
  {
    var d := min - max;
    Grows(k, d);
    assert k * (max + d) == k * max + k * d;
  }

  lemma {:induction false} Grows(k: nat, d: int)
    requires d >= 1
    ensures k * d >= k
    decreases d
  {
    if d > 1 {
      Grows(k, d - 1);
      assert k * d == k * (d - 1) + k;
    }
  }
}
