/**
 How a former primary rejoins: pg_rewind against the server behind the Service, a
 rebuild when that fails, and a marker that lets a retry pick up after a rewind that
 is already done.  A failover moves the source to an identity (system identifier and
 timeline) never seen before, and can fall anywhere, also between reading the
 identity and running pg_rewind.
 */
module Rejoin {
  import opened Common

  type Identity = string

  /** What has happened to the data directory, in order.  `Rewound` names the server
      pg_rewind really ran against; `Damaged` is a rewind, restore or removal that
      failed part-way; `Ran` a start that was not reported ready. */
  datatype Event = Rewound(identity: Identity) | Damaged | Emptied | Copied | Ran | Started | Promoted

  datatype Member = Member(source: Identity, used: set<Identity>, marker: Option<Identity>, log: seq<Event>)

  datatype Repository = NoBackup | RestoreFailed(markerKept: bool) | Restored

  datatype Clone = SourceUnreachable | RemovalFailed(markerKept: bool) | CopyFailed | CopyDone

  datatype Marking = Marked | MarkedWithError | NotMarked

  /** One attempt to follow the source: whether its identity could be read, a failover
      after that, whether the marker could be read, how pg_rewind went, how writing the
      marker went, the rebuild if there is one, and whether the slot, the signal file and
      the configuration that follow could be written. */
  datatype Attempt = Attempt(identified: bool, failover: Option<Identity>, markerRead: bool, rewound: bool,
                             marking: Marking, repository: Option<Repository>, clone: Clone, configured: bool)

  /** How starting PostgreSQL ended: it was not launched, not reported ready, ready with
      the marker still in place because removing it failed, or ready. */
  datatype Launch = NotUp | Unready | UpWithMarkerLeft | Up

  // ---------------------------------------------------------- operations

  function Record(d: Member, e: Event): Member {
    d.(log := d.log + [e])
  }

  function FailedOver(d: Member, identity: Identity): Member {
    d.(source := identity, used := d.used + {identity})
  }

  /** pg_basebackup into an emptied directory; the source is contacted first. */
  function Cloned(d: Member, c: Clone): Member {
    match c
    case SourceUnreachable => d
    case RemovalFailed(kept) => Record(d, Damaged).(marker := if kept then d.marker else None)
    case CopyFailed => Record(d, Emptied).(marker := None)
    case CopyDone => Record(d, Copied).(marker := None)
  }

  /** A delta restore removes what the backup does not hold, the marker included. */
  function RestoredFrom(d: Member, r: Repository): Member {
    match r
    case NoBackup => d
    case RestoreFailed(kept) => Record(d, Damaged).(marker := if kept then d.marker else None)
    case Restored => Record(d, Copied).(marker := None)
  }

  function Rebuilt(d: Member, repository: Option<Repository>, clone: Clone): Member {
    if repository == Some(Restored) then RestoredFrom(d, Restored)
    else Cloned(if repository.Some? then RestoredFrom(d, repository.value) else d, clone)
  }

  function MarkedFor(d: Member, identity: Option<Identity>, m: Marking): Member {
    if identity.None? || m == NotMarked then d else d.(marker := identity)
  }

  /** The identity an attempt goes by. */
  function Read(d: Member, a: Attempt): Option<Identity> {
    if a.identified then Some(d.source) else None
  }

  /** The attempt takes the rewind as done. */
  predicate Skips(d: Member, a: Attempt) {
    a.identified && a.markerRead && d.marker == Some(d.source)
  }

  function AfterFailover(d: Member, f: Option<Identity>): Member {
    if f.Some? then FailedOver(d, f.value) else d
  }

  function Followed(d: Member, a: Attempt): Member {
    var d1 := AfterFailover(d, a.failover);
    if Skips(d, a) then d1
    else if a.rewound then MarkedFor(Record(d1, Rewound(d1.source)), Read(d, a), a.marking)
    else Rebuilt(Record(d1, Damaged), a.repository, a.clone)
  }

  function Launched(d: Member, l: Launch): Member {
    match l
    case NotUp => d
    case Unready => Record(d, Ran)
    case UpWithMarkerLeft => Record(d, Started)
    case Up => Record(d, Started).(marker := None)
  }

  /** A promotion moves this member's timeline, and with it the source. */
  function PromotedTo(d: Member, identity: Identity, cleared: bool): Member {
    Record(FailedOver(d, identity), Promoted).(marker := if cleared then None else d.marker)
  }

  datatype Outcome = RejoinFailed | Configured(skipped: bool)

  class Instance {
    var source: Identity
    var used: set<Identity>
    var marker: Option<Identity>
    var log: seq<Event>

    ghost function State(): Member
      reads this
    {
      Member(source, used, marker, log)
    }

    constructor (identity: Identity)
      ensures State() == Member(identity, {identity}, None, [])
    {
      source, used, marker, log := identity, {identity}, None, [];
    }

    method Follow(a: Attempt) returns (r: Outcome)
      modifies this
      ensures State() == Followed(old(State()), a)
      ensures r == Configured(true) <==> Skips(old(State()), a) && a.configured
      ensures Skips(old(State()), a) ==> log == old(log) && marker == old(marker)
      ensures r == Configured(false) ==> log != [] && log[|log|-1] in {Rewound(source), Copied}
      ensures r.Configured? ==> a.configured
    {
      var identity := if a.identified then Some(source) else None;
      if a.failover.Some? {
        source, used := a.failover.value, used + {a.failover.value};
      }
      if identity.Some? && a.markerRead && marker == identity {
        return if a.configured then Configured(true) else RejoinFailed;
      }
      if a.rewound {
        log := log + [Rewound(source)];
        if identity.Some? {
          if a.marking != NotMarked {
            marker := identity;
          }
          if a.marking != Marked {
            return RejoinFailed;
          }
        }
        return if a.configured then Configured(false) else RejoinFailed;
      }
      log := log + [Damaged];
      var done := Rebuild(a.repository, a.clone);
      return if done && a.configured then Configured(false) else RejoinFailed;
    }

    method Rebuild(repository: Option<Repository>, clone: Clone) returns (done: bool)
      modifies `marker, `log
      ensures State() == Rebuilt(old(State()), repository, clone)
      ensures done ==> marker == None && log != [] && log[|log|-1] == Copied
      ensures done <==> repository == Some(Restored) || clone == CopyDone
    {
      if repository.Some? {
        match repository.value {
          case NoBackup =>
          case RestoreFailed(kept) =>
            log := log + [Damaged];
            marker := if kept then marker else None;
          case Restored =>
            log, marker := log + [Copied], None;
            return true;
        }
      }
      match clone {
        case SourceUnreachable => return false;
        case RemovalFailed(kept) =>
          log := log + [Damaged];
          marker := if kept then marker else None;
          return false;
        case CopyFailed =>
          log, marker := log + [Emptied], None;
          return false;
        case CopyDone =>
          log, marker := log + [Copied], None;
          return true;
      }
    }
  }

  // ----------------------------------------------------------- histories

  datatype Action =
    | Failover(identity: Identity)
    | Follow(a: Attempt)
    | Start(l: Launch)
    | Promote(identity: Identity, cleared: bool)
    | Rewind(done: bool)
    | Reclone(c: Clone)
    | RepoClone(r: Repository)

  predicate Enabled(d: Member, a: Action) {
    match a
    case Failover(identity) => identity !in d.used
    case Follow(t) => t.failover.Some? ==> t.failover.value !in d.used
    case Promote(identity, _) => identity !in d.used
    case _ => true
  }

  function Do(d: Member, a: Action): Member
    requires Enabled(d, a)
  {
    match a
    case Failover(identity) => FailedOver(d, identity)
    case Follow(t) => Followed(d, t)
    case Start(l) => Launched(d, l)
    case Promote(identity, cleared) => PromotedTo(d, identity, cleared)
    case Rewind(done) => Record(d, if done then Rewound(d.source) else Damaged)
    case Reclone(c) => Cloned(d, c)
    case RepoClone(r) => RestoredFrom(d, r)
  }

  predicate Init(d: Member) {
    d.marker.None? && d.source in d.used
  }

  ghost predicate IsRun(ds: seq<Member>, acts: seq<Action>) {
    && |ds| == |acts| + 1 && Init(ds[0])
    && forall i | 0 <= i < |acts| :: Enabled(ds[i], acts[i]) && ds[i+1] == Do(ds[i], acts[i])
  }

  /** What should not have happened to a directory whose rewind is taken as done. */
  type Bad = s: set<Event> | forall e | e in s :: !e.Rewound? witness {}

  /** It was made anew, or served as a primary. */
  const REPLACED: Bad := {Emptied, Copied, Promoted}

  /** A rewind against the identity completed at k, and none of the bad events since. */
  predicate RewoundAt(log: seq<Event>, k: nat, identity: Identity, bad: Bad) {
    && k < |log| && log[k] == Rewound(identity)
    && forall j | k < j < |log| :: log[j] !in bad
  }

  ghost predicate RewoundSince(log: seq<Event>, identity: Identity, bad: Bad) {
    exists k: nat :: RewoundAt(log, k, identity, bad)
  }

  lemma StillRewound(log: seq<Event>, e: Event, identity: Identity, bad: Bad)
    requires RewoundSince(log, identity, bad) && e !in bad
    ensures RewoundSince(log + [e], identity, bad)
  {
    var k: nat :| RewoundAt(log, k, identity, bad);
    assert RewoundAt(log + [e], k, identity, bad);
  }

  lemma JustRewound(log: seq<Event>, identity: Identity, bad: Bad)
    ensures RewoundSince(log + [Rewound(identity)], identity, bad)
  {
    assert RewoundAt(log + [Rewound(identity)], |log|, identity, bad);
  }

  lemma NoLongerRewound(log: seq<Event>, e: Event, identity: Identity, bad: Bad)
    requires e in bad
    ensures !RewoundSince(log + [e], identity, bad)
  {
    forall k: nat ensures !RewoundAt(log + [e], k, identity, bad) {
      assert (log + [e])[|log|] == e;
    }
  }

  ghost predicate Inv(d: Member, bad: Bad) {
    && d.source in d.used && (d.marker.Some? ==> d.marker.value in d.used)
    && (d.marker == Some(d.source) ==> RewoundSince(d.log, d.source, bad))
  }

  /** The rebuild fails before it removes the marker. */
  predicate LeavesMarker(repository: Option<Repository>, clone: Clone) {
    && (repository.None? || repository == Some(NoBackup) || repository == Some(RestoreFailed(true)))
    && (clone == SourceUnreachable || clone == RemovalFailed(true))
  }

  /** The step leaves a bad event behind a marker that names the source: a start whose
      marker was not removed, one not reported ready, a rewind or rebuild that failed with
      the marker in place, whether ordered or in an attempt that could not read the
      identity or the marker. */
  predicate Spoils(d: Member, a: Action, bad: Bad) {
    && d.marker == Some(d.source)
    && match a
       case Start(l) => (Started in bad && l == UpWithMarkerLeft) || (Ran in bad && l == Unready)
       case Rewind(done) => Damaged in bad && !done
       case Reclone(c) => Damaged in bad && c == RemovalFailed(true)
       case RepoClone(r) => Damaged in bad && r == RestoreFailed(true)
       case Follow(t) =>
         && Damaged in bad && !(t.identified && t.markerRead) && t.failover.None?
         && !t.rewound && LeavesMarker(t.repository, t.clone)
       case _ => false
  }

  /** A rebuild begun with a damaged directory leaves it damaged if it leaves the marker. */
  lemma RebuildSpoilsIff(d: Member, repository: Option<Repository>, clone: Clone, bad: Bad)
    requires d.marker == Some(d.source) && RewoundSince(d.log, d.source, bad)
    ensures var d' := Rebuilt(Record(d, Damaged), repository, clone);
      && d'.source == d.source
      && (d'.marker == Some(d.source) <==> LeavesMarker(repository, clone))
      && (d'.marker == Some(d.source) ==> (RewoundSince(d'.log, d.source, bad) <==> Damaged !in bad))
  {
    var log := d.log + [Damaged];
    if Damaged in bad {
      NoLongerRewound(d.log, Damaged, d.source, bad);
      NoLongerRewound(log, Damaged, d.source, bad);
      NoLongerRewound(log + [Damaged], Damaged, d.source, bad);
    } else {
      StillRewound(d.log, Damaged, d.source, bad);
      StillRewound(log, Damaged, d.source, bad);
      StillRewound(log + [Damaged], Damaged, d.source, bad);
    }
  }

  lemma FollowSpoilsIff(d: Member, t: Attempt, bad: Bad)
    requires Inv(d, bad) && Enabled(d, Follow(t))
    ensures var d' := Followed(d, t);
      d'.marker == Some(d'.source) ==> (RewoundSince(d'.log, d'.source, bad) <==> !Spoils(d, Follow(t), bad))
  {
    var d1 := AfterFailover(d, t.failover);
    if !Skips(d, t) {
      if t.rewound {
        JustRewound(d1.log, d1.source, bad);
      } else if d1.marker == Some(d1.source) {
        RebuildSpoilsIff(d1, t.repository, t.clone, bad);
      }
    }
  }

  /** The condition is exact, for every step of every kind: if the marker names the source
      afterwards, the directory is as it says exactly when the step does not spoil it. */
  lemma StepSpoilsIff(d: Member, a: Action, bad: Bad)
    requires Inv(d, bad) && Enabled(d, a)
    ensures var d' := Do(d, a);
      d'.marker == Some(d'.source) ==> (RewoundSince(d'.log, d'.source, bad) <==> !Spoils(d, a, bad))
  {
    match a
    case Follow(t) => FollowSpoilsIff(d, t, bad);
    case Failover(_) =>
    case Promote(_, _) =>
    case _ =>
      JustRewound(d.log, d.source, bad);
      if d.marker == Some(d.source) {
        forall e: Event ensures !e.Rewound? ==> (RewoundSince(d.log + [e], d.source, bad) <==> e !in bad) {
          if e in bad {
            NoLongerRewound(d.log, e, d.source, bad);
          } else {
            StillRewound(d.log, e, d.source, bad);
          }
        }
      }
  }

  lemma StepKeepsInv(d: Member, a: Action, bad: Bad)
    requires Inv(d, bad) && Enabled(d, a) && !Spoils(d, a, bad)
    ensures Inv(Do(d, a), bad)
  {
    StepSpoilsIff(d, a, bad);
  }

  lemma {:induction false} RunKeepsInv(ds: seq<Member>, acts: seq<Action>, i: nat, bad: Bad)
    requires IsRun(ds, acts) && i < |ds| && forall j | 0 <= j < i :: !Spoils(ds[j], acts[j], bad)
    ensures Inv(ds[i], bad)
  {
    if i > 0 {
      RunKeepsInv(ds, acts, i - 1, bad);
      assert ds[i-1+1] == Do(ds[i-1], acts[i-1]);
      StepKeepsInv(ds[i-1], acts[i-1], bad);
    }
  }

  // ------------------------------------------------------------ theorems

  /** Whenever an attempt skips pg_rewind, one completed against that very identity, and
      the directory has not been emptied, replaced or promoted since, for every history
      of retries and failovers. */
  lemma SkipsOnlyAfterARewind(ds: seq<Member>, acts: seq<Action>, i: nat)
    requires IsRun(ds, acts) && i < |acts| && acts[i].Follow? && Skips(ds[i], acts[i].a)
    ensures RewoundSince(ds[i].log, ds[i].source, REPLACED)
  {
    RunKeepsInv(ds, acts, i, REPLACED);
  }

  /** The marker's own claim, that nothing has run on the directory since, is less sure:
      with any choice of what counts against it (a successful start, a start not
      reported ready, a failed rewind or rebuild) it holds if no step spoiled it, and
      StepSpoilsIff says which do. */
  lemma SkipsOnlyOnAnUntouchedDirectory(ds: seq<Member>, acts: seq<Action>, i: nat, bad: Bad)
    requires IsRun(ds, acts) && i < |acts| && acts[i].Follow? && Skips(ds[i], acts[i].a)
    requires forall j | 0 <= j < i :: !Spoils(ds[j], acts[j], bad)
    ensures RewoundSince(ds[i].log, ds[i].source, bad)
  {
    RunKeepsInv(ds, acts, i, bad);
  }

  /** A failover between reading the identity and pg_rewind leaves a marker for a source
      that is no longer the one: no retry takes that rewind as done. */
  lemma FailoverDuringRewindIsRedone(ds: seq<Member>, acts: seq<Action>, i: nat, next: Attempt)
    requires IsRun(ds, acts) && i < |acts| && acts[i].Follow? && acts[i].a.failover.Some?
    ensures !Skips(ds[i+1], next)
  {
    RunKeepsInv(ds, acts, i, {});
    assert ds[i+1] == Do(ds[i], acts[i]);
  }

  /** A copy, a start reported ready, and a promotion that removes the marker leave none for
      any later attempt, whatever the source is by then. */
  lemma MarkerIsGone(d: Member, a: Action, source: Identity, next: Attempt)
    requires Enabled(d, a) && (a == Reclone(CopyDone) || a == RepoClone(Restored) || a == Start(Up) || (a.Promote? && a.cleared))
    ensures !Skips(Do(d, a).(source := source), next)
  {
  }

  /** A server comes up on the rewound directory, or is launched and never reported ready,
      and its marker stays: the next attempt skips the rewind although it has run. */
  lemma StartedDirectoryIsTrusted(l: Launch) returns (ds: seq<Member>, acts: seq<Action>, next: Attempt)
    requires l == UpWithMarkerLeft || l == Unready
    ensures IsRun(ds, acts) && Skips(ds[|acts|], next)
    ensures !RewoundSince(ds[|acts|].log, ds[|acts|].source, if l == Unready then {Ran} else {Started})
  {
    var d := Member("s/1", {"s/1"}, None, []);
    next := Attempt(true, None, true, true, Marked, None, SourceUnreachable, true);
    acts := [Follow(next), Start(l)];
    var d1 := Do(d, acts[0]);
    var d2 := Do(d1, acts[1]);
    ds := [d, d1, d2];
    NoLongerRewound(d1.log, if l == Unready then Ran else Started, "s/1", if l == Unready then {Ran} else {Started});
  }

  /** Nor need the directory be undamaged: on any whose marker names the source, an
      attempt that cannot read the identity or the marker, whose pg_rewind fails, and whose
      rebuild fails before it removes the marker, leaves it for the next attempt to trust. */
  lemma DamagedDirectoryIsTrusted(d: Member, t: Attempt, next: Attempt)
    requires d.marker == Some(d.source) && Enabled(d, Follow(t))
    requires !(t.identified && t.markerRead) && t.failover.None? && !t.rewound && LeavesMarker(t.repository, t.clone)
    requires next.identified && next.markerRead
    ensures Spoils(d, Follow(t), {Damaged}) && Skips(Do(d, Follow(t)), next)
    ensures var log := Do(d, Follow(t)).log; log[|log|-1] == Damaged
  {
  }

  /** And such a history exists. */
  lemma DamagedDirectoryIsReachable() returns (ds: seq<Member>, acts: seq<Action>, next: Attempt)
    ensures IsRun(ds, acts) && Skips(ds[|acts|], next) && !RewoundSince(ds[|acts|].log, ds[|acts|].source, {Damaged})
  {
    var d := Member("s/1", {"s/1"}, None, []);
    var second := Attempt(false, None, true, false, Marked, None, SourceUnreachable, true);
    next := Attempt(true, None, true, true, Marked, None, SourceUnreachable, true);
    acts := [Follow(next), Follow(second)];
    var d1 := Do(d, acts[0]);
    var d2 := Do(d1, acts[1]);
    ds := [d, d1, d2];
    NoLongerRewound(d1.log, Damaged, "s/1", {Damaged});
  }
}
