/**
 One applier pass over one migration: the entries in order, each retried until it ends
 or the process stops leading, the verdict over them, and the steps of a multistep
 migration on one shard.
 */
module ApplierPass {
  import opened Common
  import opened Migrations
  import opened StepRetries
  import L = Leadership

  // -------------------------------------------------------- the key order

  /** Shards by id, the catalog entry after all of them. */
  predicate Before(a: Key, b: Key) {
    match (a, b)
    case (Shard(x), Shard(y)) => x < y
    case (Shard(_), CatalogKey) => true
    case (CatalogKey, _) => false
  }

  /** The keys of a row, each once, in order. */
  predicate InOrder(keys: seq<Key>) {
    forall i, j | 0 <= i < j < |keys| :: Before(keys[i], keys[j])
  }

  predicate KeysOf(keys: seq<Key>, per: map<Key, EntryState>) {
    && InOrder(keys)
    && (forall k | k in keys :: k in per)
    && (forall k | k in per :: k in keys)
  }

  // -------------------------------------------------- driving the entries

  /** What came of one entry's turn: whether the process led when it came, what driving the
      shard returned, whether the pass was cancelled meanwhile, and whether the entry was
      saved. */
  datatype Answer = Answer(leads: bool, entry: EntryState, cancelled: bool, saved: bool)

  /** The entries after the pass, the ones it drove, in order, and whether it
      stopped before the end. */
  datatype Drive = Drive(stopped: bool, per: map<Key, EntryState>, driven: seq<Key>)

  function DriveFrom(keys: seq<Key>, per: map<Key, EntryState>, answer: Key -> Answer): Drive
    requires forall k | k in keys :: k in per
  {
    if keys == [] then Drive(false, per, [])
    else
      var k, t := keys[0], answer(keys[0]);
      if Final(per[k]) then DriveFrom(keys[1..], per, answer)
      else if k == CatalogKey && AnyFailed(per) then DriveFrom(keys[1..], per[k := Failed], answer)
      else if !t.leads then Drive(true, per, [])
      else if t.cancelled then Drive(true, per, [k])
      else if !t.saved then Drive(true, per[k := t.entry], [k])
      else
        var rest := DriveFrom(keys[1..], per[k := t.entry], answer);
        rest.(driven := [k] + rest.driven)
  }

  /** One entry's turn, from the moment the process is asked whether it leads to the
      moment the entry is saved: the attempts in between, and how it ended. */
  datatype Turn = Turn(from: nat, leads: bool, tries: Tries, cancelled: bool, saved: Reply, to: nat)

  ghost predicate AllTimed(b: Backoff, world: Key -> Turn) {
    forall k: Key :: Timed(b, world(k).tries)
  }

  /** What driving the entries answers: the retry loop on each one as it was found. */
  ghost function Answers(b: Backoff, per: map<Key, EntryState>, world: Key -> Turn): (f: Key -> Answer)
    requires AllTimed(b, world)
    ensures forall k | k in per :: f(k) == AnswerOf(b, per[k], world(k))
  {
    (k: Key) => if k in per then AnswerOf(b, per[k], world(k)) else Answer(false, Pending, false, false)
  }

  ghost function AnswerOf(b: Backoff, s0: EntryState, t: Turn): Answer
    requires Timed(b, t.tries)
  {
    Answer(t.leads, Retry(b, s0, t.tries).state, t.cancelled, t.saved == Stored)
  }

  ghost function DriveAll(b: Backoff, keys: seq<Key>, per: map<Key, EntryState>, world: Key -> Turn): Drive
    requires KeysOf(keys, per) && AllTimed(b, world)
  {
    DriveFrom(keys, per, Answers(b, per, world))
  }

  method DriveEntries(b0: Backoff, keys: seq<Key>, per0: map<Key, EntryState>, world: Key -> Turn)
    returns (stopped: bool, per: map<Key, EntryState>, driven: seq<Key>)
    requires KeysOf(keys, per0) && AllTimed(Bounded(b0), world)
    ensures Drive(stopped, per, driven) == DriveAll(Bounded(b0), keys, per0, world)
  {
    stopped, per, driven := false, per0, [];
    ghost var answer := Answers(Bounded(b0), per0, world);
    ghost var all := DriveFrom(keys, per0, answer);
    var todo := keys;
    while todo != [] && !stopped
      invariant AsFound(todo, per, per0)
      invariant all == if stopped then Drive(true, per, driven) else Prepend(driven, DriveFrom(todo, per, answer))
      decreases |todo|, !stopped
    {
      var k := todo[0];
      Unfolds(driven, todo, per, answer);
      var visited, entry := false, None;
      if !Final(per[k]) {
        stopped, visited, entry := Visit(b0, k, per, world(k));
      }
      StaysAsFound(todo, per, per0, entry);
      driven := if visited then driven + [k] else driven;
      per := if entry.Some? then per[k := entry.value] else per;
      todo := todo[1..];
    }
  }

  /** The entries still to come are as the pass found them. */
  predicate AsFound(todo: seq<Key>, per: map<Key, EntryState>, per0: map<Key, EntryState>) {
    InOrder(todo) && forall k | k in todo :: k in per && k in per0 && per[k] == per0[k]
  }

  lemma StaysAsFound(todo: seq<Key>, per: map<Key, EntryState>, per0: map<Key, EntryState>, e: Option<EntryState>)
    requires todo != [] && AsFound(todo, per, per0)
    ensures AsFound(todo[1..], if e.Some? then per[todo[0] := e.value] else per, per0)
  {
    TailInOrder(todo);
  }

  /** What one unfinished entry's turn comes to: whether the pass stops, whether it drove
      the entry, and the entry's new state if it has one. */
  function Visited(k: Key, per: map<Key, EntryState>, t: Answer): (bool, bool, Option<EntryState>) {
    if k == CatalogKey && AnyFailed(per) then (false, false, Some(Failed))
    else if !t.leads then (true, false, None)
    else if t.cancelled then (true, true, None)
    else (!t.saved, true, Some(t.entry))
  }

  method Visit(b0: Backoff, k: Key, per: map<Key, EntryState>, t: Turn) returns (stops: bool, visited: bool, entry: Option<EntryState>)
    requires k in per && Timed(Bounded(b0), t.tries)
    ensures (stops, visited, entry) == Visited(k, per, AnswerOf(Bounded(b0), per[k], t))
  {
    if k == CatalogKey && AnyFailed(per) {
      return false, false, Some(Failed);
    }
    if !t.leads {
      return true, false, None;
    }
    var a := TakeTurn(b0, per[k], t);
    if a.cancelled {
      return true, true, None;
    }
    return !a.saved, true, Some(a.entry);
  }

  lemma Unfolds(driven: seq<Key>, keys: seq<Key>, per: map<Key, EntryState>, answer: Key -> Answer)
    requires keys != [] && forall k | k in keys :: k in per
    ensures var k := keys[0];
      var v := Visited(k, per, answer(k));
      Prepend(driven, DriveFrom(keys, per, answer)) ==
        if Final(per[k]) then Prepend(driven, DriveFrom(keys[1..], per, answer))
        else
          var driven' := if v.1 then driven + [k] else driven;
          var per' := if v.2.Some? then per[k := v.2.value] else per;
          if v.0 then Drive(true, per', driven') else Prepend(driven', DriveFrom(keys[1..], per', answer))
  {
    var k := keys[0];
    forall rest: seq<Key> ensures driven + ([k] + rest) == driven + [k] + rest {
    }
  }

  method TakeTurn(b0: Backoff, s0: EntryState, t: Turn) returns (a: Answer)
    requires Timed(Bounded(b0), t.tries)
    ensures a == AnswerOf(Bounded(b0), s0, t)
  {
    var entry, ran, attempts := RunWithRetries(b0, s0, false, t.tries);
    a := Answer(t.leads, entry, t.cancelled, t.saved == Stored);
  }

  function Prepend(driven: seq<Key>, d: Drive): Drive {
    d.(driven := driven + d.driven)
  }

  lemma TailInOrder(keys: seq<Key>)
    requires InOrder(keys) && keys != []
    ensures InOrder(keys[1..]) && keys[0] !in keys[1..]
  {
    var tail := keys[1..];
    assert forall i | 0 <= i < |tail| :: tail[i] == keys[i+1];
  }

  // ------------------------------------------------------------ the verdict

  /** One of the entries of the keys has the state e. */
  predicate Among(keys: seq<Key>, per: map<Key, EntryState>, e: EntryState)
    requires forall k | k in keys :: k in per
  {
    exists k | k in keys :: per[k] == e
  }

  method Tally(keys: seq<Key>, per: map<Key, EntryState>) returns (failed: bool, applied: nat)
    requires KeysOf(keys, per)
    ensures failed == Has(per, Failed)
    ensures applied > 0 <==> Has(per, Applied)
  {
    failed, applied := false, 0;
    for i := 0 to |keys|
      invariant failed == Among(keys[..i], per, Failed)
      invariant applied > 0 <==> Among(keys[..i], per, Applied)
    {
      assert keys[..i+1] == keys[..i] + [keys[i]];
      var e := per[keys[i]];
      if e == Applied {
        applied := applied + 1;
      } else if e == Failed {
        failed := true;
      }
    }
    assert keys[..|keys|] == keys;
  }

  method FailAll(keys: seq<Key>, per: map<Key, EntryState>) returns (per': map<Key, EntryState>)
    requires KeysOf(keys, per)
    ensures per'.Keys == per.Keys && forall k | k in per' :: per'[k] == Failed
  {
    per' := per;
    for i := 0 to |keys|
      invariant per'.Keys == per.Keys
      invariant forall j | 0 <= j < i :: per'[keys[j]] == Failed
    {
      per' := per'[keys[i] := Failed];
    }
  }

  method Finish(keys: seq<Key>, per: map<Key, EntryState>) returns (ending: Ending, per': map<Key, EntryState>)
    requires KeysOf(keys, per)
    ensures ending == Verdict(per)
    ensures per' == Ended(Row(InProgress, "", per), ending).per
    ensures ending == Done <==> !Has(per, Failed) && (Has(per, Applied) || per == map[])
    ensures ending == SomeFailed <==> Has(per, Failed)
    ensures Has(per, Failed) || Has(per, Applied) ==> per' == per
    ensures !Has(per, Failed) && !Has(per, Applied) ==> per'.Keys == per.Keys && forall k | k in per' :: per'[k] == Failed
  {
    var failed, applied := Tally(keys, per);
    if failed {
      return SomeFailed, per;
    }
    if applied == 0 && |per| > 0 {
      per' := FailAll(keys, per);
      return NothingApplied, per';
    }
    return Done, per;
  }

  // --------------------------------------------------- what a pass leaves

  /** The pass did not stop at k: its turn returned and was saved. */
  predicate Returned(answer: Key -> Answer, k: Key) {
    answer(k).leads && !answer(k).cancelled && answer(k).saved
  }

  /** Entry by entry: final entries are left alone, a driven entry holds what driving
      it returned, and the catalog entry of a migration with a failure is failed. */
  lemma {:induction false} EntriesAfter(keys: seq<Key>, per: map<Key, EntryState>, answer: Key -> Answer, k: Key)
    requires InOrder(keys) && forall k | k in keys :: k in per
    ensures var d := DriveFrom(keys, per, answer);
      && d.per.Keys == per.Keys
      && (forall x | x in d.driven :: x in keys && !Final(per[x]))
      && (k in per && (k !in keys || Final(per[k])) ==> d.per[k] == per[k])
      && (!d.stopped ==> forall x | x in d.driven :: Returned(answer, x))
      && (!d.stopped && k in keys && !Final(per[k]) ==>
            if k in d.driven then d.per[k] == answer(k).entry else k == CatalogKey && d.per[k] == Failed && AnyFailed(d.per))
    decreases |keys|
  {
    if keys != [] {
      var h, t := keys[0], answer(keys[0]);
      var tail := keys[1..];
      TailInOrder(keys);
      if Final(per[h]) {
        EntriesAfter(tail, per, answer, k);
      } else if h == CatalogKey && AnyFailed(per) {
        NothingAfterTheCatalog(keys);
      } else if t.leads && !t.cancelled && t.saved {
        EntriesAfter(tail, per[h := t.entry], answer, k);
      }
    }
  }

  /** A pass that stops does so at one entry, not final and with everything before it final
      or saved: where it was asked and did not lead, which then was not driven, or else at
      the last one it drove, whose state is kept unless the pass was cancelled. */
  lemma {:induction false} WhereItStops(keys: seq<Key>, per: map<Key, EntryState>, answer: Key -> Answer) returns (k: Key)
    requires InOrder(keys) && (forall k | k in keys :: k in per) && DriveFrom(keys, per, answer).stopped
    ensures var d := DriveFrom(keys, per, answer);
      && k in keys && !Final(per[k]) && !Returned(answer, k)
      && (if answer(k).leads then d.driven != [] && d.driven[|d.driven|-1] == k else k !in d.driven)
      && (k in d.per && d.per[k] == if answer(k).leads && !answer(k).cancelled then answer(k).entry else per[k])
  {
    var h, t, tail := keys[0], answer(keys[0]), keys[1..];
    TailInOrder(keys);
    if Final(per[h]) {
      k := WhereItStops(tail, per, answer);
    } else if h == CatalogKey && AnyFailed(per) {
      k := WhereItStops(tail, per[h := Failed], answer);
    } else if Returned(answer, h) {
      k := WhereItStops(tail, per[h := t.entry], answer);
    } else {
      k := h;
    }
  }

  // -------------------------------------------------- passes and leadership

  /** The process leads at every question of the pass, no other leader's term refuses a
      save, nothing is cancelled, and the entries are saved. */
  ghost predicate KeepsLeadership(keys: seq<Key>, world: Key -> Turn) {
    forall k | k in keys :: KeptThrough(world(k))
  }

  ghost predicate KeptThrough(t: Turn) {
    t.leads && !t.cancelled && t.saved == Stored && forall n: nat :: Led(t.tries.attempt(n))
  }

  lemma {:induction false} NeverStops(keys: seq<Key>, per: map<Key, EntryState>, answer: Key -> Answer)
    requires forall k | k in keys :: k in per && Returned(answer, k)
    ensures !DriveFrom(keys, per, answer).stopped
  {
    if keys != [] {
      var k := keys[0];
      if Final(per[k]) {
        NeverStops(keys[1..], per, answer);
      } else if k == CatalogKey && AnyFailed(per) {
        NeverStops(keys[1..], per[k := Failed], answer);
      } else {
        NeverStops(keys[1..], per[k := answer(k).entry], answer);
      }
    }
  }

  /** A pass that keeps the leadership is not stopped and leaves every entry final, so one
      recorded complete has every entry applied or skipped, and one applied unless there
      was none. */
  lemma LedPassFinishes(b: Backoff, keys: seq<Key>, per: map<Key, EntryState>, world: Key -> Turn)
    requires KeysOf(keys, per) && AllTimed(b, world) && KeepsLeadership(keys, world)
    ensures var d := DriveAll(b, keys, per, world);
      && !d.stopped && (forall k | k in d.per :: Final(d.per[k]))
      && (Verdict(d.per) == Done ==>
            && (forall k | k in d.per :: d.per[k] == Applied || d.per[k] == Skipped)
            && (d.per == map[] || Has(d.per, Applied)))
  {
    var d, answer := DriveAll(b, keys, per, world), Answers(b, per, world);
    forall k | k in keys ensures Returned(answer, k) && (!Final(per[k]) ==> Final(answer(k).entry)) {
      assert KeptThrough(world(k));
      if !Final(per[k]) {
        HowItEnds(b, per[k], world(k).tries);
      }
    }
    NeverStops(keys, per, answer);
    forall k | k in d.per ensures Final(d.per[k]) {
      EntriesAfter(keys, per, answer, k);
    }
    if Verdict(d.per) == Done {
      DoneHasNoFailure(d.per);
    }
  }

  lemma DoneHasNoFailure(per: map<Key, EntryState>)
    requires Verdict(per) == Done
    ensures (forall k | k in per :: per[k] != Failed) && (per == map[] || Has(per, Applied))
  {
    assert !Has(per, Failed);
  }

  // -------------------------------------------- what a pass sees of the terms

  /** The attempt's answers are those of the moments it asked at. */
  predicate HeardIn(tl: nat -> L.Moment, own: nat, t: Turn, a: Attempt) {
    && t.from <= a.markedAt <= a.checkedAt <= t.to
    && (a.marked == Stored ==> tl(a.markedAt).term == own)
    && (a.marked == Superseded ==> tl(a.markedAt).term != own)
    && (a.noted == Superseded ==> tl(a.checkedAt).term != own)
    && (a.leads <==> tl(a.checkedAt).leading.Some?)
    && (a.cancelled || !a.woke ==> t.cancelled)
  }

  ghost predicate HeardThrough(tl: nat -> L.Moment, own: nat, t: Turn) {
    && (t.leads <==> tl(t.from).leading.Some?)
    && (t.saved == Stored ==> tl(t.to).term == own)
    && forall n: nat :: HeardIn(tl, own, t, t.tries.attempt(n))
  }

  /** The turns of a pass that latched a leader's term follow one another, and each hears
      what the run of leaders says at its moments. */
  ghost predicate Plausible(l: L.Latch, keys: seq<Key>, world: Key -> Turn) {
    && L.Latched(l)
    && (forall k | k in keys :: HeardThrough(L.Seen(l), l.term, world(k)))
    && (forall i, j | 0 <= i < j < |keys| :: world(keys[i]).to <= world(keys[j]).from)
  }

  /** The attempt that ended a turn found that the process no longer leads, and its entry
      was saved all the same. */
  ghost predicate GaveUpUnled(b: Backoff, s0: EntryState, t: Turn)
    requires Timed(b, t.tries)
  {
    var n := Retry(b, s0, t.tries).attempts;
    && n > 0 && t.saved == Stored
    && FoundUnled(t.tries.attempt(n - 1), t.tries.clock(n - 1) - t.tries.start, b.total)
  }

  /** An entry left unfinished and saved was given up for want of the leadership, and for
      no other reason: a refused term would have refused the save, and a cancellation
      would have ended the pass. */
  lemma UnfinishedMeansUnled(b: Backoff, tl: nat -> L.Moment, own: nat, s0: EntryState, t: Turn)
    requires Timed(b, t.tries) && !Final(s0) && L.Timeline(tl, own) && HeardThrough(tl, own, t) && !t.cancelled && t.saved == Stored
    ensures !Final(Retry(b, s0, t.tries).state) <==> GaveUpUnled(b, s0, t)
  {
    HowItEnds(b, s0, t.tries);
    var a := t.tries.attempt(Retry(b, s0, t.tries).attempts - 1);
    assert HeardIn(tl, own, t, a);
    assert tl(a.markedAt).term <= tl(t.to).term && tl(a.checkedAt).term <= tl(t.to).term;
  }

  /** A migration is recorded complete with an unfinished entry exactly when some driven
      shard's last attempt found that the process no longer leads and its entry was saved:
      no other leader had taken a term yet. */
  lemma CompleteUnfinishedIff(b: Backoff, l: L.Latch, keys: seq<Key>, per: map<Key, EntryState>, world: Key -> Turn)
    requires KeysOf(keys, per) && AllTimed(b, world) && Plausible(l, keys, world)
    requires var d := DriveAll(b, keys, per, world); !d.stopped && Verdict(d.per) == Done
    ensures var d := DriveAll(b, keys, per, world);
      && (forall k | k in d.per :: d.per[k] != Failed) && (d.per == map[] || Has(d.per, Applied))
      && ((exists k | k in d.per :: !Final(d.per[k])) <==> exists k | k in d.driven && k in per :: GaveUpUnled(b, per[k], world(k)))
  {
    var d, answer := DriveAll(b, keys, per, world), Answers(b, per, world);
    DoneHasNoFailure(d.per);
    L.LeadersSeeTimelines(l);
    forall k | k in d.per
      ensures k in per && (k !in d.driven ==> Final(d.per[k]))
      ensures k in d.driven ==> (!Final(d.per[k]) <==> GaveUpUnled(b, per[k], world(k)))
    {
      EntriesAfter(keys, per, answer, k);
      if k in d.driven {
        assert Returned(answer, k) && HeardThrough(L.Seen(l), l.term, world(k));
        UnfinishedMeansUnled(b, L.Seen(l), l.term, per[k], world(k));
      }
    }
    forall k | k in d.driven ensures k in d.per {
      EntriesAfter(keys, per, answer, k);
    }
  }

  // --------------------------------------------- the catalog's own statement

  lemma NothingAfterTheCatalog(keys: seq<Key>)
    requires InOrder(keys) && keys != [] && keys[0] == CatalogKey
    ensures keys[1..] == []
  {
    assert |keys| > 1 ==> Before(keys[0], keys[1]);
  }

  /** When the catalog entry is driven, every other one is final and not failed, or was
      driven, came back and was saved unfinished. */
  lemma {:induction false} CatalogDrivenLast(keys: seq<Key>, per: map<Key, EntryState>, answer: Key -> Answer, k: Key)
    requires InOrder(keys) && (forall k | k in keys :: k in per)
    requires CatalogKey in DriveFrom(keys, per, answer).driven && k != CatalogKey && k in per
    ensures var d := DriveFrom(keys, per, answer);
      && d.per.Keys == per.Keys && CatalogKey in keys && answer(CatalogKey).leads && d.per[k] != Failed
      && (k in keys && !Final(per[k]) ==> Returned(answer, k) && d.per[k] == answer(k).entry && PlaceOf(keys, k) < PlaceOf(keys, CatalogKey))
      && (k !in keys || Final(per[k]) ==> d.per[k] == per[k])
    decreases |keys|
  {
    var h, t, tail := keys[0], answer(keys[0]), keys[1..];
    TailInOrder(keys);
    if h == CatalogKey {
      NothingAfterTheCatalog(keys);
      CatalogTurn(keys, per, answer, k);
    } else if Final(per[h]) {
      CatalogDrivenLast(tail, per, answer, k);
    } else {
      CatalogDrivenLast(tail, per[h := t.entry], answer, k);
    }
  }

  lemma CatalogTurn(keys: seq<Key>, per: map<Key, EntryState>, answer: Key -> Answer, k: Key)
    requires keys == [CatalogKey] && CatalogKey in per && k in per && k != CatalogKey
    requires CatalogKey in DriveFrom(keys, per, answer).driven
    ensures var d := DriveFrom(keys, per, answer);
      d.per.Keys == per.Keys && answer(CatalogKey).leads && d.per[k] == per[k] && per[k] != Failed
  {
    assert keys[1..] == [];
    assert !Has(per, Failed);
  }

  /** The place of a key. */
  function PlaceOf(keys: seq<Key>, k: Key): nat {
    if keys == [] || keys[0] == k then 0 else 1 + PlaceOf(keys[1..], k)
  }

  lemma {:induction false} PlaceFinds(keys: seq<Key>, k: Key)
    requires k in keys
    ensures PlaceOf(keys, k) < |keys| && keys[PlaceOf(keys, k)] == k
  {
    if keys[0] != k {
      PlaceFinds(keys[1..], k);
    }
  }

  /** A shard driven before the catalog entry, saved, and finished if a save of the
      catalog's turn was stored. */
  lemma ShardIsFinished(b: Backoff, tl: nat -> L.Moment, own: nat, s0: EntryState, t: Turn, c: Turn, n: nat)
    requires Timed(b, t.tries) && !Final(s0) && L.Timeline(tl, own) && HeardThrough(tl, own, t) && HeardThrough(tl, own, c)
    requires !t.cancelled && t.saved == Stored && t.to <= c.from && c.leads && c.tries.attempt(n).marked == Stored
    ensures Final(Retry(b, s0, t.tries).state)
  {
    UnfinishedMeansUnled(b, tl, own, s0, t);
    HowItEnds(b, s0, t.tries);
    var a, m := t.tries.attempt(Retry(b, s0, t.tries).attempts - 1), c.tries.attempt(n);
    assert HeardIn(tl, own, t, a) && HeardIn(tl, own, c, m);
    if tl(a.checkedAt).leading.None? {
      L.RegainedIsSuperseded(tl, own, a.checkedAt, c.from, m.markedAt);
    }
  }

  /** The catalog's own statement is sent, that is its entry recorded running, only when
      every shard has applied or been skipped, also in a pass that loses the leadership at
      one shard and has it again at the next: then its term is refused. */
  lemma CatalogGoesLast(b: Backoff, l: L.Latch, keys: seq<Key>, per: map<Key, EntryState>, world: Key -> Turn, n: nat, k: Key)
    requires KeysOf(keys, per) && AllTimed(b, world) && Plausible(l, keys, world)
    requires CatalogKey in DriveAll(b, keys, per, world).driven && world(CatalogKey).tries.attempt(n).marked == Stored
    requires k in per && k != CatalogKey
    ensures var d := DriveAll(b, keys, per, world); k in d.per && (d.per[k] == Applied || d.per[k] == Skipped)
  {
    CatalogDrivenLast(keys, per, Answers(b, per, world), k);
    if !Final(per[k]) {
      TurnsInOrder(l, keys, world, k);
      L.LeadersSeeTimelines(l);
      ShardIsFinished(b, L.Seen(l), l.term, per[k], world(k), world(CatalogKey), n);
    }
  }

  lemma TurnsInOrder(l: L.Latch, keys: seq<Key>, world: Key -> Turn, k: Key)
    requires Plausible(l, keys, world) && k in keys && CatalogKey in keys && PlaceOf(keys, k) < PlaceOf(keys, CatalogKey)
    ensures world(k).to <= world(CatalogKey).from
    ensures HeardThrough(L.Seen(l), l.term, world(k)) && HeardThrough(L.Seen(l), l.term, world(CatalogKey))
  {
    PlaceFinds(keys, k);
    PlaceFinds(keys, CatalogKey);
  }

  // --------------------------------------------------- the abandoned shard

  /** One second apart, within ten. */
  const BACKOFF := Backoff(1, 1, 10)

  lemma {:induction false} EvenWaits(n: nat)
    ensures Wait(BACKOFF, n) == 1
  {
    if n > 0 {
      EvenWaits(n - 1);
    }
  }

  /** A turn whose every attempt goes the same way. */
  function TurnOf(a: Attempt, to: nat): Turn {
    Turn(0, true, Tries(0, n => n, n => a), false, Stored, to)
  }

  const SUCCESS := Attempt(Stored, 0, Succeeded, true, false, Stored, true, true, 0)
  const UNLED := Attempt(Stored, 0, Stumbled, true, false, Stored, true, false, 1)

  lemma TurnIsTimed(a: Attempt, to: nat)
    ensures Timed(BACKOFF, TurnOf(a, to).tries)
  {
    var clock := TurnOf(a, to).tries.clock;
    forall n: nat ensures clock(n + 1) >= clock(n) + Wait(BACKOFF, n) {
      EvenWaits(n);
    }
  }

  lemma TurnIsHeard(stops: bool)
    ensures HeardThrough(L.Seen(L.LoneLeader(stops)), 1, TurnOf(SUCCESS, 0))
    ensures stops ==> HeardThrough(L.Seen(L.LoneLeader(stops)), 1, TurnOf(UNLED, 1))
  {
    L.LoneLeaderSees(stops, 0);
    L.LoneLeaderSees(stops, 1);
  }

  function LastUnled(k: Key): Turn {
    if k == Shard(0) then TurnOf(SUCCESS, 0) else TurnOf(UNLED, 1)
  }

  lemma LastUnledIsPlausible()
    ensures AllTimed(BACKOFF, LastUnled) && Plausible(L.LoneLeader(true), [Shard(0), Shard(1)], LastUnled)
  {
    TurnIsTimed(SUCCESS, 0);
    TurnIsTimed(UNLED, 1);
    TurnIsHeard(true);
    L.LoneLeaderLatched(true);
  }

  lemma LastUnledAnswers(k: Key)
    requires AllTimed(BACKOFF, LastUnled)
    ensures AnswerOf(BACKOFF, Pending, LastUnled(k)) == Answer(true, if k == Shard(0) then Applied else Retrying, false, true)
  {
    var x := LastUnled(k).tries;
    assert DecidedAt(BACKOFF, Pending, x, 0, if k == Shard(0) then Applied else Retrying);
    RetryIsFirst(BACKOFF, Pending, x, 0, 0, if k == Shard(0) then Applied else Retrying);
  }

  lemma DriveTwo(x: Key, y: Key, per: map<Key, EntryState>, answer: Key -> Answer)
    requires x != y && x != CatalogKey && per == map[x := Pending, y := Pending]
    requires Returned(answer, x) && Returned(answer, y) && answer(x).entry != Failed
    ensures DriveFrom([x, y], per, answer) == Drive(false, per[x := answer(x).entry][y := answer(y).entry], [x, y])
  {
    var keys := [x, y];
    var per1 := per[x := answer(x).entry];
    assert keys[1..] == [y] && [y][1..] == [];
    assert !Has(per1, Failed);
    assert DriveFrom([y], per1, answer) == Drive(false, per1[y := answer(y).entry], [y]);
  }

  /** The last shard of a pass finds, after its wait, that the process no longer leads, and
      nobody has taken a new term: its unfinished entry is saved, nothing looks at it again,
      and the migration is recorded complete. */
  lemma AbandonedLastShardIsComplete() returns (keys: seq<Key>, per: map<Key, EntryState>)
    ensures KeysOf(keys, per) && AllTimed(BACKOFF, LastUnled) && Plausible(L.LoneLeader(true), keys, LastUnled)
    ensures var d := DriveAll(BACKOFF, keys, per, LastUnled);
      !d.stopped && Verdict(d.per) == Done && Has(d.per, Retrying)
  {
    keys, per := [Shard(0), Shard(1)], map[Shard(0) := Pending, Shard(1) := Pending];
    assert Before(Shard(0), Shard(1));
    LastUnledIsPlausible();
    LastUnledDrive(keys, per);
    OneRetryingIsDone();
  }

  lemma LastUnledDrive(keys: seq<Key>, per: map<Key, EntryState>)
    requires keys == [Shard(0), Shard(1)] && per == map[Shard(0) := Pending, Shard(1) := Pending]
    requires KeysOf(keys, per) && AllTimed(BACKOFF, LastUnled)
    ensures DriveAll(BACKOFF, keys, per, LastUnled) == Drive(false, map[Shard(0) := Applied, Shard(1) := Retrying], keys)
  {
    LastUnledAnswers(Shard(0));
    LastUnledAnswers(Shard(1));
    DriveTwo(Shard(0), Shard(1), per, Answers(BACKOFF, per, LastUnled));
    assert per[Shard(0) := Applied][Shard(1) := Retrying] == map[Shard(0) := Applied, Shard(1) := Retrying];
  }

  lemma OneRetryingIsDone()
    ensures var per := map[Shard(0) := Applied, Shard(1) := Retrying]; Verdict(per) == Done && Has(per, Retrying)
  {
    var per := map[Shard(0) := Applied, Shard(1) := Retrying];
    assert per[Shard(0)] == Applied && per[Shard(1)] == Retrying;
  }

  function BothSucceed(k: Key): Turn {
    TurnOf(SUCCESS, 0)
  }

  lemma BothSucceedIsPlausible()
    ensures AllTimed(BACKOFF, BothSucceed) && Plausible(L.LoneLeader(false), [Shard(0), CatalogKey], BothSucceed)
  {
    TurnIsTimed(SUCCESS, 0);
    TurnIsHeard(false);
    L.LoneLeaderLatched(false);
  }

  /** The catalog's turn does come: a pass that sends its statement, after the shard. */
  lemma CatalogIsReached() returns (keys: seq<Key>, per: map<Key, EntryState>)
    ensures KeysOf(keys, per) && AllTimed(BACKOFF, BothSucceed) && Plausible(L.LoneLeader(false), keys, BothSucceed)
    ensures DriveAll(BACKOFF, keys, per, BothSucceed) == Drive(false, map[Shard(0) := Applied, CatalogKey := Applied], [Shard(0), CatalogKey])
    ensures BothSucceed(CatalogKey).tries.attempt(0).marked == Stored
  {
    keys, per := [Shard(0), CatalogKey], map[Shard(0) := Pending, CatalogKey := Pending];
    assert Before(Shard(0), CatalogKey);
    BothSucceedIsPlausible();
    var answer := Answers(BACKOFF, per, BothSucceed);
    forall k | k in per ensures answer(k) == Answer(true, Applied, false, true) {
      assert DecidedAt(BACKOFF, Pending, BothSucceed(k).tries, 0, Applied);
      RetryIsFirst(BACKOFF, Pending, BothSucceed(k).tries, 0, 0, Applied);
    }
    DriveTwo(Shard(0), CatalogKey, per, answer);
    assert per[Shard(0) := Applied][CatalogKey := Applied] == map[Shard(0) := Applied, CatalogKey := Applied];
  }

  // ------------------------------------------- the steps of one shard entry

  /** An entry with the number of the multistep migration's steps behind it. */
  datatype Progressed = Progressed(state: EntryState, step: nat)

  /** The entry when a shard is done with, and every entry saved on the way, in order. */
  datatype Steps = Steps(entry: Progressed, saves: seq<Progressed>)

  /** `ran(i)` is what retrying step i ended with. */
  function StepsFrom(e: Progressed, n: nat, ran: nat -> EntryState): Steps
    decreases n - e.step
  {
    if e.step >= n then Steps(e, [])
    else if ran(e.step) != Applied then Steps(Progressed(ran(e.step), e.step), [Progressed(Running, e.step)])
    else
      var next := Progressed(Applied, e.step + 1);
      var rest := StepsFrom(next, n, ran);
      rest.(saves := [Progressed(Running, e.step), next] + rest.saves)
  }

  function AfterSaves(saves: seq<Progressed>, rest: Steps): Steps {
    rest.(saves := saves + rest.saves)
  }

  method ApplySteps(e0: Progressed, n: nat, ran: nat -> EntryState) returns (e: Progressed, saves: seq<Progressed>)
    ensures Steps(e, saves) == StepsFrom(e0, n, ran)
  {
    e, saves := e0, [];
    while e.step < n
      invariant StepsFrom(e0, n, ran) == AfterSaves(saves, StepsFrom(e, n, ran))
      decreases n - e.step
    {
      StepUnfolds(saves, e, n, ran);
      var r := ran(e.step);
      saves := saves + [Progressed(Running, e.step)];
      if r != Applied {
        e := Progressed(r, e.step);
        return;
      }
      e := Progressed(r, e.step + 1);
      saves := saves + [e];
    }
  }

  lemma StepUnfolds(saves: seq<Progressed>, e: Progressed, n: nat, ran: nat -> EntryState)
    requires e.step < n
    ensures AfterSaves(saves, StepsFrom(e, n, ran)) ==
      var marked := saves + [Progressed(Running, e.step)];
      if ran(e.step) != Applied then Steps(Progressed(ran(e.step), e.step), marked)
      else AfterSaves(marked + [Progressed(Applied, e.step + 1)], StepsFrom(Progressed(Applied, e.step + 1), n, ran))
  {
    var mark, next := Progressed(Running, e.step), Progressed(Applied, e.step + 1);
    var rest := StepsFrom(next, n, ran).saves;
    assert saves + ([mark, next] + rest) == saves + [mark] + [next] + rest;
  }

  /** The entry of a shard that ran its steps out is final, and applied only when
      every one of them was. */
  lemma {:induction false} AppliedMeansEveryStep(e: Progressed, n: nat, ran: nat -> EntryState)
    requires e.state != Applied && e.step < n
    ensures StepsFrom(e, n, ran).entry.state == Applied <==> forall i | e.step <= i < n :: ran(i) == Applied
    decreases n - e.step
  {
    if ran(e.step) == Applied && e.step + 1 < n {
      var next := Progressed(Pending, e.step + 1);
      AppliedMeansEveryStep(next, n, ran);
      assert StepsFrom(Progressed(Applied, e.step + 1), n, ran).entry == StepsFrom(next, n, ran).entry;
    }
  }

  /** The steps run one after the other from the one the entry had come to, up to the first
      that does not apply, which decides the entry's state; each is saved as running before
      it is run, and as behind the entry once it has applied. */
  lemma {:induction false} StepsOneByOne(e: Progressed, n: nat, ran: nat -> EntryState)
    requires e.step <= n
    ensures var d := StepsFrom(e, n, ran);
      var m := d.entry.step - e.step;
      && e.step <= d.entry.step <= n
      && (forall i | e.step <= i < d.entry.step :: ran(i) == Applied)
      && (d.entry.step < n ==> d.entry.state == ran(d.entry.step) != Applied)
      && (d.entry.step == n ==> d.entry.state == if e.step == n then e.state else Applied)
      && |d.saves| == 2 * m + (if d.entry.step < n then 1 else 0)
      && (forall i | 0 <= i < m :: d.saves[2*i+1] == Progressed(Applied, e.step + i + 1))
      && (forall i | 0 <= 2 * i < |d.saves| :: d.saves[2*i] == Progressed(Running, e.step + i))
    decreases n - e.step
  {
    if e.step < n && ran(e.step) == Applied {
      var next := Progressed(Applied, e.step + 1);
      StepsOneByOne(next, n, ran);
      var d, rest := StepsFrom(e, n, ran), StepsFrom(next, n, ran);
      var m := d.entry.step - e.step;
      forall i | 0 <= i < m ensures d.saves[2*i+1] == Progressed(Applied, e.step + i + 1) {
        if i > 0 {
          assert d.saves[2*i+1] == rest.saves[2*(i-1)+1];
        }
      }
      forall i | 0 <= 2 * i < |d.saves| ensures d.saves[2*i] == Progressed(Running, e.step + i) {
        if i > 0 {
          assert d.saves[2*i] == rest.saves[2*(i-1)];
        }
      }
    }
  }

  /** But a row saved on the way says applied with steps still to run, and does so
      exactly when a step that is not the last one applied.  A process that dies there
      leaves a shard no later pass drives again: see EntriesAfter. */
  lemma {:induction false} AppliedOnRecordTooEarly(e: Progressed, n: nat, ran: nat -> EntryState)
    requires e.step < n
    ensures (exists s | s in StepsFrom(e, n, ran).saves :: s.state == Applied && s.step < n) <==> (e.step + 1 < n && ran(e.step) == Applied)
  {
    var all := StepsFrom(e, n, ran);
    if ran(e.step) == Applied {
      var next := Progressed(Applied, e.step + 1);
      assert all.saves[1] == next;
      if e.step + 1 == n {
        assert all.saves == [Progressed(Running, e.step), next];
      }
    }
  }
}
