/**
 The certified barrier as a consistent-cut protocol.

 A barrier pauses every active shard, drains two-phase and local writers by
 polling one group at a time, reads the decision watermark, drains again, takes
 a restore point on every group, re-reads the watermark, verifies the pause and
 only then certifies.  Clients, the transaction coordinator and the resolver act
 between any two of those steps, and a shard may lose its pause at any moment.

 A run is a sequence of actions; every theorem holds of all of them.
 */
module BarrierCut {
  import opened Common

  type Group = string
  type Gid = string
  type TxnId = nat
  type Token = string

  /** The group that is never paused: the barrier itself writes there. */
  const CATALOG: Group := "catalog"

  datatype Status = Open | Prepared | Committed | RolledBack

  /** A transaction on one group.  `readWrite` is fixed when it begins; `wrote` is
      holding a transaction id; `copy` marks the controller's own read-only
      placement copy, which the writer count leaves out. */
  datatype Txn = Txn(group: Group, start: nat, readWrite: bool, wrote: bool, copy: bool,
                     status: Status, gid: Option<Gid>)

  datatype Fate = Preparing | Commit | Abort

  /** A two-phase transaction of the coordinator.  `row` says whether its decision
      row still exists, `branch` which transaction each participant prepared. */
  datatype Decision = Decision(participants: set<Group>, fate: Fate, seqno: nat, row: bool,
                               branch: map<Group, TxnId>)

  datatype Cluster = Cluster(txns: map<TxnId, Txn>, decisions: map<Gid, Decision>, watermark: nat,
                             paused: set<Group>, clock: map<Group, nat>)

  /** The phases of a barrier, in the order it goes through them; a failed one has
      established nothing. */
  type Phase = nat
  const FAILED: Phase := 0
  const PAUSING: Phase := 1
  const DRAINING: Phase := 2
  const DRAINING_WRITERS: Phase := 3
  const MARKING: Phase := 4
  const REDRAINING: Phase := 5
  const REDRAINING_WRITERS: Phase := 6
  const POINTING: Phase := 7
  const REREADING: Phase := 8
  const VERIFYING: Phase := 9
  const CERTIFIED: Phase := 10

  /** The barrier's own state.  `passed` holds the groups the polling pass in
      progress found quiet, `polled` that the pass has read no preparing row.
      `ours` is that the verification found the fence under this run's token.
      The rest is history: `origin` what each shard had committed when the first
      restore point could be taken, `restored` and `rivalled` the shards whose
      pause was lost after this barrier had confirmed it and put back by somebody
      else; `rivalled` by a barrier that had raised the fence since and before
      the verification read it, `restored` by anybody else; `unseen` those of the
      latter that were put back before the verification looked at the shard. */
  datatype Control = Control(groups: set<Group>, token: Token, phase: Phase, pausedAt: map<Group, nat>,
                             polled: bool, passed: set<Group>, before: nat,
                             cut: map<Group, set<TxnId>>, ours: bool, verified: set<Group>,
                             origin: map<Group, set<TxnId>>, restored: set<Group>, unseen: set<Group>, rivalled: set<Group>)

  /** The cluster write fence: its owner, and whether another barrier has raised it
      since this one did. */
  datatype Fence = Fence(owner: Token, rival: bool)

  datatype State = State(db: Cluster, ctl: Control, fence: Fence)

  /** What clients, the coordinator, the resolver and the servers do. */
  datatype ClientAction =
    | Begin(t: TxnId, g: Group, copy: bool)
    | Write(t: TxnId)
    | CommitOpen(t: TxnId)
    | RollbackOpen(t: TxnId)
    | Prepare(t: TxnId, gid: Gid)
    | CommitPrepared(t: TxnId)
    | RollbackPrepared(t: TxnId)
    | InsertDecision(gid: Gid, participants: set<Group>)
    | Decide(gid: Gid, commit: bool)
    | DeleteRow(gid: Gid)
    | Tick(g: Group)
    | LosePause(g: Group)

  /** What other actors do to the pauses and the fence.  `Repause` is a pause by one
      that has not raised the fence since this barrier did: a workflow, or an earlier
      barrier that lost its lock.  A rival barrier raises the fence under a token of
      its own before it pauses anything; a recovery or a restore clears it. */
  datatype OtherAction =
    | Repause(g: Group)
    | RivalRaise(token: Token)
    | RivalPause(g: Group)
    | ClearFence

  /** The barrier's own steps. */
  datatype OwnAction =
    | ApplyPause(g: Group)
    | ConfirmPause(g: Group)
    | SeePreparing
    | SeePrepared(g: Group)
    | SeeWriters(g: Group)
    | ReadWatermark
    | CreatePoint(g: Group)
    | RereadWatermark
    | VerifyFence
    | Verify(g: Group)
    | Advance
    | Fail

  /** A step of anybody. */
  datatype Action = Client(c: ClientAction) | Other(o: OtherAction) | Own(b: OwnAction)

  function Clock(db: Cluster, g: Group): nat {
    if g in db.clock then db.clock[g] else 0
  }

  function Shards(c: Control): set<Group> {
    c.groups - {CATALOG}
  }

  predicate Coordinated(db: Cluster, x: Txn) {
    x.gid.Some? && x.gid.value in db.decisions
  }

  /** The writing transactions group g has committed: what its WAL replays. */
  function CommittedOn(db: Cluster, g: Group): set<TxnId> {
    set t | t in db.txns && db.txns[t].group == g && db.txns[t].wrote && db.txns[t].status == Committed
  }

  function PreparedOn(db: Cluster, g: Group): set<TxnId> {
    set t | t in db.txns && db.txns[t].group == g && db.txns[t].status == Prepared
  }

  /** WritersSince: backends holding a transaction id, and transactions that began
      at or before the pause landed, the placement copy excepted. */
  function WritersSince(db: Cluster, g: Group, since: nat): set<TxnId> {
    set t | t in db.txns && db.txns[t].group == g && db.txns[t].status == Open
            && (db.txns[t].wrote || (db.txns[t].start <= since && !db.txns[t].copy))
  }

  function PreparingRows(db: Cluster): set<Gid> {
    set x | x in db.decisions && db.decisions[x].row && db.decisions[x].fate == Preparing
  }

  predicate AllPrepared(db: Cluster, d: Decision) {
    forall p | p in d.participants ::
      p in d.branch && d.branch[p] in db.txns && db.txns[d.branch[p]].status == Prepared
  }

  predicate HasStatus(db: Cluster, t: TxnId, s: Status) {
    t in db.txns && db.txns[t].status == s
  }

  predicate CanDo(db: Cluster, a: ClientAction) {
    match a
    case Begin(t, g, copy) => t !in db.txns
    case Write(t) => HasStatus(db, t, Open) && db.txns[t].readWrite
    case CommitOpen(t) => HasStatus(db, t, Open)
    case RollbackOpen(t) => HasStatus(db, t, Open)
    case Prepare(t, gid) =>
      // The coordinator prepares only participants that wrote, and only while
      // the decision row says preparing; anyone may prepare any other name.
      HasStatus(db, t, Open) &&
      (gid in db.decisions ==>
         && db.txns[t].wrote
         && db.txns[t].group in db.decisions[gid].participants
         && db.decisions[gid].row && db.decisions[gid].fate == Preparing)
    case CommitPrepared(t) =>
      HasStatus(db, t, Prepared) &&
      (Coordinated(db, db.txns[t]) ==> db.decisions[db.txns[t].gid.value].fate == Commit)
    case RollbackPrepared(t) =>
      HasStatus(db, t, Prepared) &&
      (Coordinated(db, db.txns[t]) ==> db.decisions[db.txns[t].gid.value].fate != Commit)
    case InsertDecision(gid, ps) =>
      // The row is written before any participant prepares.
      gid !in db.decisions && forall t | t in db.txns :: db.txns[t].gid != Some(gid)
    case Decide(gid, commit) =>
      gid in db.decisions && db.decisions[gid].fate == Preparing &&
      (commit ==> AllPrepared(db, db.decisions[gid]))
    case DeleteRow(gid) =>
      gid in db.decisions && db.decisions[gid].row && db.decisions[gid].fate != Preparing &&
      forall t | t in db.txns && db.txns[t].status == Prepared :: db.txns[t].gid != Some(gid)
    case Tick(g) => true
    case LosePause(g) => true
  }

  predicate CanOther(s: State, o: OtherAction) {
    match o
    case RivalRaise(token) => token != s.ctl.token
    case RivalPause(g) => s.fence.rival
    case _ => true
  }

  predicate CanOwn(s: State, a: OwnAction) {
    var db, c := s.db, s.ctl;
    match a
    case ApplyPause(g) => c.phase == PAUSING && g in Shards(c) - c.pausedAt.Keys
    case ConfirmPause(g) => c.phase == PAUSING && g in Shards(c) - c.pausedAt.Keys && g in db.paused
    case SeePreparing => (c.phase == DRAINING || c.phase == REDRAINING) && !c.polled
    case SeePrepared(g) => (c.phase == DRAINING || c.phase == REDRAINING) && c.polled && g in c.groups - c.passed
    case SeeWriters(g) =>
      (c.phase == DRAINING_WRITERS || c.phase == REDRAINING_WRITERS) &&
      g in Shards(c) - c.passed && g in c.pausedAt
    case ReadWatermark => c.phase == MARKING
    case CreatePoint(g) => c.phase == POINTING && g in c.groups - c.cut.Keys
    case RereadWatermark => c.phase == REREADING
    case VerifyFence => c.phase == VERIFYING && !c.ours
    case Verify(g) => c.phase == VERIFYING && c.ours && g in Shards(c) - c.verified && g in c.pausedAt
    case Advance => PhaseDone(c)
    case Fail => c.phase != CERTIFIED
  }

  predicate Enabled(s: State, a: Action) {
    match a
    case Client(c) => CanDo(s.db, c)
    case Other(o) => CanOther(s, o)
    case Own(b) => CanOwn(s, b)
  }

  /** The current phase has done all its work; Marking and Rereading end with
      their own reads. */
  predicate PhaseDone(c: Control) {
    || (c.phase == PAUSING && c.pausedAt.Keys == Shards(c))
    || ((c.phase == DRAINING || c.phase == REDRAINING) && c.polled && c.passed == c.groups)
    || ((c.phase == DRAINING_WRITERS || c.phase == REDRAINING_WRITERS) && c.passed == Shards(c))
    || (c.phase == POINTING && c.cut.Keys == c.groups)
    || (c.phase == VERIFYING && c.ours && c.verified == Shards(c))
  }

  function SetStatus(db: Cluster, t: TxnId, s: Status): Cluster
    requires t in db.txns
  {
    db.(txns := db.txns[t := db.txns[t].(status := s)])
  }

  function StepPhase(s: State): Control {
    var c := s.ctl.(phase := s.ctl.phase + 1, polled := false, passed := {});
    if c.phase == POINTING then
      c.(origin := map g | g in Shards(c) :: CommittedOn(s.db, g))
    else c
  }

  /** A poll that finds g busy starts the whole pass over. */
  function Polled(c: Control, g: Group, quiet: bool): Control {
    if quiet then c.(passed := c.passed + {g}) else c.(polled := false, passed := {})
  }

  function DoClient(db: Cluster, a: ClientAction): Cluster
    requires CanDo(db, a)
  {
    match a
    case Begin(t, g, copy) =>
      db.(txns := db.txns[t := Txn(g, Clock(db, g), g !in db.paused && !copy, false, copy, Open, None)])
    case Write(t) => db.(txns := db.txns[t := db.txns[t].(wrote := true)])
    case CommitOpen(t) => SetStatus(db, t, Committed)
    case RollbackOpen(t) => SetStatus(db, t, RolledBack)
    case Prepare(t, gid) =>
      var x := db.txns[t].(status := Prepared, gid := Some(gid));
      var ds := if gid in db.decisions
                then db.decisions[gid := db.decisions[gid].(branch := db.decisions[gid].branch[x.group := t])]
                else db.decisions;
      db.(txns := db.txns[t := x], decisions := ds)
    case CommitPrepared(t) => SetStatus(db, t, Committed)
    case RollbackPrepared(t) => SetStatus(db, t, RolledBack)
    case InsertDecision(gid, ps) =>
      db.(watermark := db.watermark + 1,
          decisions := db.decisions[gid := Decision(ps, Preparing, db.watermark + 1, true, map[])])
    case Decide(gid, commit) =>
      db.(decisions := db.decisions[gid := db.decisions[gid].(fate := if commit then Commit else Abort)])
    case DeleteRow(gid) => db.(decisions := db.decisions[gid := db.decisions[gid].(row := false)])
    case Tick(g) => db.(clock := db.clock[g := Clock(db, g) + 1])
    case LosePause(g) => db.(paused := db.paused - {g})
  }

  /** The pause this barrier confirmed on g is gone; pausing a shard that is still
      paused changes nothing. */
  predicate LostPause(s: State, g: Group) {
    g in s.ctl.pausedAt && g !in s.db.paused
  }

  function DoOther(s: State, o: OtherAction): State
    requires CanOther(s, o)
  {
    match o
    case Repause(g) => Restored(s, g, false)
    case RivalRaise(token) => s.(fence := Fence(token, true))
    case RivalPause(g) => Restored(s, g, !s.ctl.ours)
    case ClearFence => s.(fence := s.fence.(owner := ""))
  }

  /** Somebody else pauses g; `seen` is that the verification will find the fence theirs. */
  function Restored(s: State, g: Group, seen: bool): State {
    s.(db := s.db.(paused := s.db.paused + {g}),
       ctl := if !LostPause(s, g) then s.ctl
              else if seen then s.ctl.(rivalled := s.ctl.rivalled + {g})
              else s.ctl.(restored := s.ctl.restored + {g},
                          unseen := if g in s.ctl.verified then s.ctl.unseen else s.ctl.unseen + {g}))
  }

  function DoOwn(s: State, a: OwnAction): State
    requires CanOwn(s, a)
  {
    var db, c := s.db, s.ctl;
    match a
    case ApplyPause(g) => s.(db := db.(paused := db.paused + {g}))
    case ConfirmPause(g) => s.(ctl := c.(pausedAt := c.pausedAt[g := Clock(db, g)]))
    case SeePreparing => s.(ctl := c.(polled := PreparingRows(db) == {}, passed := {}))
    case SeePrepared(g) => s.(ctl := Polled(c, g, PreparedOn(db, g) == {}))
    case SeeWriters(g) => s.(ctl := Polled(c, g, WritersSince(db, g, c.pausedAt[g]) == {}))
    case ReadWatermark => s.(ctl := StepPhase(s).(before := db.watermark))
    case CreatePoint(g) => s.(ctl := c.(cut := c.cut[g := CommittedOn(db, g)]))
    case RereadWatermark =>
      if db.watermark > c.before then s.(ctl := c.(phase := FAILED)) else s.(ctl := StepPhase(s))
    case VerifyFence => s.(ctl := if s.fence.owner == c.token then c.(ours := true) else c.(phase := FAILED))
    case Verify(g) =>
      if g in db.paused && WritersSince(db, g, c.pausedAt[g]) == {}
      then s.(ctl := c.(verified := c.verified + {g}))
      else s.(ctl := c.(phase := FAILED))
    case Advance => s.(ctl := StepPhase(s))
    case Fail => s.(ctl := c.(phase := FAILED))
  }

  function Do(s: State, a: Action): State
    requires Enabled(s, a)
  {
    match a
    case Client(c) => s.(db := DoClient(s.db, c))
    case Other(o) => DoOther(s, o)
    case Own(b) => DoOwn(s, b)
  }

  // ---------------------------------------------------------------- runs

  ghost predicate Step(s: State, s': State) {
    exists a :: Enabled(s, a) && s' == Do(s, a)
  }

  ghost predicate StepAt(ss: seq<State>, i: nat)
    requires 0 < i < |ss|
  {
    Step(ss[i-1], ss[i])
  }

  /** Any interleaving of the barrier with everybody else, as its successive states. */
  ghost predicate IsRun(ss: seq<State>) {
    ss != [] && Init(ss[0]) && forall i: nat | 0 < i < |ss| :: StepAt(ss, i)
  }

  /** A barrier with its fence raised, about to pause its first shard, on any consistent cluster:
      transactions may be open, prepared or decided in any combination. */
  ghost predicate Init(s: State) {
    && DbInv(s.db)
    && s.ctl.phase == PAUSING && s.ctl.pausedAt == map[] && !s.ctl.polled && s.ctl.passed == {}
    && s.ctl.cut == map[] && s.ctl.verified == {} && s.ctl.origin == map[] && s.ctl.restored == {} && s.ctl.unseen == {} && s.ctl.rivalled == {}
    && !s.ctl.ours && s.ctl.token != "" && s.fence.owner == s.ctl.token && !s.fence.rival
  }

  // ---------------------------------------------------------- invariants

  /** What the servers and the coordinator keep whatever the barrier does. */
  ghost predicate TxnOk(db: Cluster, t: TxnId)
    requires t in db.txns
  {
    var x := db.txns[t];
    && (x.wrote ==> x.readWrite)
    && (x.readWrite ==> !x.copy)
    && (x.status == Open ==> x.gid.None?)
    && x.start <= Clock(db, x.group)
    && (Coordinated(db, x) && x.status == Committed ==> db.decisions[x.gid.value].fate == Commit)
  }

  ghost predicate BranchOk(db: Cluster, gid: Gid, p: Group)
    requires gid in db.decisions && p in db.decisions[gid].branch
  {
    var t := db.decisions[gid].branch[p];
    t in db.txns && db.txns[t].group == p && db.txns[t].gid == Some(gid) && db.txns[t].wrote
  }

  ghost predicate DecisionOk(db: Cluster, gid: Gid)
    requires gid in db.decisions
  {
    var d := db.decisions[gid];
    && d.seqno <= db.watermark
    && (d.fate == Preparing ==> d.row)
    && (forall p | p in d.branch :: BranchOk(db, gid, p))
    && (d.fate == Commit ==> forall p | p in d.participants ::
          p in d.branch && (db.txns[d.branch[p]].status == Prepared || db.txns[d.branch[p]].status == Committed))
  }

  ghost predicate DbInv(db: Cluster) {
    && (forall t | t in db.txns :: TxnOk(db, t))
    && (forall x | x in db.decisions :: DecisionOk(db, x))
  }

  /** The pause of g has held without a break since this barrier confirmed it. */
  predicate Held(s: State, g: Group) {
    g in s.ctl.pausedAt && g in s.db.paused && g !in s.ctl.restored && g !in s.ctl.rivalled
  }

  predicate WritersGone(c: Control, g: Group) {
    g in Shards(c) && (c.phase > DRAINING_WRITERS || (c.phase == DRAINING_WRITERS && g in c.passed))
  }

  predicate PreparedGone(c: Control, g: Group) {
    g in c.groups && (c.phase > REDRAINING || (c.phase == REDRAINING && g in c.passed))
  }

  predicate Settled(c: Control) {
    c.phase > REDRAINING || (c.phase == REDRAINING && c.polled)
  }

  /** No transaction on g can still write, or commit what it wrote. */
  ghost predicate NoWriter(db: Cluster, g: Group) {
    forall t | t in db.txns && db.txns[t].group == g :: !(db.txns[t].status == Open && db.txns[t].readWrite)
  }

  ghost predicate NoPreparedWriter(db: Cluster, g: Group) {
    forall t | t in db.txns && db.txns[t].group == g :: !(db.txns[t].status == Prepared && db.txns[t].wrote)
  }

  ghost predicate ControlOk(s: State) {
    var c := s.ctl;
    && c.passed <= c.groups && c.verified <= Shards(c)
    && c.pausedAt.Keys <= Shards(c)
    && (c.phase >= 2 ==> c.pausedAt.Keys == Shards(c))
    && (c.phase == REDRAINING && !c.polled ==> c.passed == {})
    && (c.phase != FAILED && c.phase < POINTING ==> c.cut == map[])
    && (c.phase != FAILED && c.phase < VERIFYING ==> c.verified == {})
    && c.cut.Keys <= c.groups
    && (c.phase > POINTING ==> c.cut.Keys == c.groups)
    && (c.phase >= POINTING ==> c.origin.Keys == Shards(c))
    && (c.phase == CERTIFIED ==> c.verified == Shards(c))
    && (c.phase != FAILED ==> c.restored - c.verified <= c.unseen <= c.restored)
    && (c.phase > MARKING ==> c.before <= s.db.watermark)
  }

  /** A rival that raised the fence keeps it from ever being found under this run's
      token again, so a shard it paused before that was looked at is never certified. */
  predicate FenceOk(s: State) {
    && s.ctl.token != "" && (s.fence.rival ==> s.fence.owner != s.ctl.token)
    && (s.ctl.rivalled != {} ==> s.fence.rival && !s.ctl.ours)
    && (s.ctl.phase == CERTIFIED ==> s.ctl.ours)
  }

  /** While the pause holds, the read-write transactions of a paused shard are
      among those that were already running when it landed. */
  ghost predicate PauseInv(s: State) {
    forall g, t | g in s.ctl.pausedAt && Held(s, g) && t in s.db.txns && s.db.txns[t].group == g ::
      s.db.txns[t].readWrite ==> s.db.txns[t].start <= s.ctl.pausedAt[g]
  }

  ghost predicate DrainInv(s: State) {
    forall g | Held(s, g) ::
      && (WritersGone(s.ctl, g) ==> NoWriter(s.db, g))
      && (PreparedGone(s.ctl, g) && g in Shards(s.ctl) ==> NoPreparedWriter(s.db, g))
  }

  /** Nothing commits on a held shard from the first restore point on. */
  ghost predicate CutInv(s: State) {
    forall g | g in Shards(s.ctl) && s.ctl.phase >= POINTING && g in s.ctl.origin ::
      && s.ctl.origin[g] <= CommittedOn(s.db, g)
      && (Held(s, g) ==> CommittedOn(s.db, g) == s.ctl.origin[g])
      && (Held(s, g) && g in s.ctl.cut ==> s.ctl.cut[g] == s.ctl.origin[g])
      && (g in s.ctl.verified && g !in s.ctl.unseen && g in s.ctl.cut ==> s.ctl.cut[g] == s.ctl.origin[g])
  }

  /** Every two-phase transaction numbered up to the watermark is decided once the
      second drain has seen no preparing row, and finished on every group the
      second drain has passed. */
  ghost predicate SettledInv(s: State) {
    Settled(s.ctl) ==>
      forall x | x in s.db.decisions && s.db.decisions[x].seqno <= s.ctl.before ::
        && s.db.decisions[x].fate != Preparing
        && forall t | t in s.db.txns && s.db.txns[t].gid == Some(x) && PreparedGone(s.ctl, s.db.txns[t].group) ::
             s.db.txns[t].status != Prepared
  }

  /** The transactions numbered up to the watermark that committed on g are all in
      g's restore point, by the branch g prepared. */
  ghost predicate PointHolds(s: State, g: Group)
    requires g in s.ctl.cut
  {
    && s.ctl.cut[g] <= CommittedOn(s.db, g)
    && (forall x | x in s.db.decisions && s.db.decisions[x].seqno <= s.ctl.before
                   && s.db.decisions[x].fate == Commit && g in s.db.decisions[x].participants ::
          g in s.db.decisions[x].branch && s.db.decisions[x].branch[g] in s.ctl.cut[g])
  }

  /** No transaction numbered past the watermark is in g's restore point. */
  ghost predicate PointBounded(s: State, g: Group)
    requires g in s.ctl.cut
  {
    forall t | t in s.ctl.cut[g] && t in s.db.txns && Coordinated(s.db, s.db.txns[t]) ::
      s.db.decisions[s.db.txns[t].gid.value].seqno <= s.ctl.before
  }

  ghost predicate PointInv(s: State) {
    && (s.ctl.phase >= POINTING ==> forall g | g in s.ctl.cut && g in s.ctl.groups :: PointHolds(s, g))
    && (s.ctl.phase >= VERIFYING ==> forall g | g in s.ctl.cut :: PointBounded(s, g))
  }

  ghost predicate Inv(s: State) {
    && DbInv(s.db) && ControlOk(s) && FenceOk(s) && PauseInv(s) && DrainInv(s) && CutInv(s) && SettledInv(s) && PointInv(s)
  }

  // --------------------------------------------------- what clients can do

  /** How one transaction may change in one client step. */
  ghost predicate TxnEvolves(db: Cluster, x: Txn, x': Txn) {
    && x'.group == x.group && x'.start == x.start && x'.readWrite == x.readWrite && x'.copy == x.copy
    && (x.wrote ==> x'.wrote)
    && (x'.wrote && !x.wrote ==> x.status == Open && x.readWrite && x'.status == Open)
    && (x.status == Committed || x.status == RolledBack ==> x' == x)
    && (x.status == Prepared ==> x'.gid == x.gid && x'.status != Open)
    && (x.status == Open && x'.status == Prepared && Coordinated(db, x') ==>
          db.decisions[x'.gid.value].fate == Preparing)
    && (x.status == Open && x'.status != Prepared ==> x'.gid == x.gid)
  }

  ghost predicate DecisionEvolves(d: Decision, d': Decision) {
    && d'.participants == d.participants && d'.seqno == d.seqno
    && (d.fate != Preparing ==> d'.fate == d.fate && d'.branch == d.branch)
  }

  /** One client step, seen as a relation: a step can only make a shard quieter
      unless a read-write transaction is open on it. */
  ghost predicate Evolves(db: Cluster, db': Cluster) {
    && db.txns.Keys <= db'.txns.Keys && db.decisions.Keys <= db'.decisions.Keys
    && db.watermark <= db'.watermark && db'.paused <= db.paused
    && (forall t | t in db.txns :: TxnEvolves(db, db.txns[t], db'.txns[t]))
    && (forall t | t in db'.txns && t !in db.txns ::
          var x := db'.txns[t];
          x.status == Open && !x.wrote && x.gid.None? && (x.readWrite ==> x.group !in db.paused))
    && (forall x | x in db.decisions :: DecisionEvolves(db.decisions[x], db'.decisions[x]))
    && (forall x | x in db'.decisions && x !in db.decisions ::
          db'.decisions[x].seqno > db.watermark && forall t | t in db'.txns :: db'.txns[t].gid != Some(x))
  }

  lemma ClientEvolves(db: Cluster, a: ClientAction)
    requires DbInv(db) && CanDo(db, a)
    ensures Evolves(db, DoClient(db, a))
  {
    forall t | t in db.txns ensures TxnEvolves(db, db.txns[t], DoClient(db, a).txns[t]) {
      assert TxnOk(db, t);
      TxnsEvolve(db, a, t);
    }
  }

  lemma TxnsEvolve(db: Cluster, a: ClientAction, t: TxnId)
    requires CanDo(db, a) && t in db.txns && TxnOk(db, t)
    ensures t in DoClient(db, a).txns && TxnEvolves(db, db.txns[t], DoClient(db, a).txns[t])
  {
  }

  lemma TxnStep(db: Cluster, a: ClientAction, t: TxnId)
    requires DbInv(db) && CanDo(db, a) && t in DoClient(db, a).txns
    ensures TxnOk(DoClient(db, a), t)
  {
    if t in db.txns { assert TxnOk(db, t); }
  }

  lemma DecisionStep(db: Cluster, a: ClientAction, x: Gid)
    requires DbInv(db) && CanDo(db, a) && x in DoClient(db, a).decisions
    ensures DecisionOk(DoClient(db, a), x)
  {
    var db' := DoClient(db, a);
    if x in db.decisions {
      assert DecisionOk(db, x);
      forall p | p in db'.decisions[x].branch ensures BranchOk(db', x, p) {
        if p in db.decisions[x].branch {
          assert BranchOk(db, x, p) && TxnOk(db, db.decisions[x].branch[p]);
        }
      }
    }
  }

  lemma DbStep(db: Cluster, a: ClientAction)
    requires DbInv(db) && CanDo(db, a)
    ensures DbInv(DoClient(db, a))
  {
    forall t | t in DoClient(db, a).txns ensures TxnOk(DoClient(db, a), t) { TxnStep(db, a, t); }
    forall x | x in DoClient(db, a).decisions ensures DecisionOk(DoClient(db, a), x) { DecisionStep(db, a, x); }
  }

  // -------------------------------------------- client steps keep the rest

  /** A held shard past its writer drain stays free of writers, and past the
      second prepared drain free of prepared writers: nothing on it can prepare. */
  lemma DrainClient(s: State, db': Cluster)
    requires DbInv(s.db) && ControlOk(s) && PauseInv(s) && DrainInv(s) && Evolves(s.db, db')
    ensures PauseInv(s.(db := db')) && DrainInv(s.(db := db'))
  {
    forall t | t in s.db.txns ensures TxnOk(s.db, t) && TxnEvolves(s.db, s.db.txns[t], db'.txns[t]) {}
  }

  lemma CommittedGrows(db: Cluster, db': Cluster, g: Group)
    requires Evolves(db, db')
    ensures CommittedOn(db, g) <= CommittedOn(db', g)
  {
    forall t | t in CommittedOn(db, g) ensures t in CommittedOn(db', g) {
      assert TxnEvolves(db, db.txns[t], db'.txns[t]);
    }
  }

  /** Nothing commits on a group with no writer and no prepared writer. */
  lemma QuietCommitsNothing(db: Cluster, db': Cluster, g: Group)
    requires DbInv(db) && Evolves(db, db') && NoWriter(db, g) && NoPreparedWriter(db, g)
    ensures CommittedOn(db', g) == CommittedOn(db, g)
  {
    CommittedGrows(db, db', g);
    forall t | t in CommittedOn(db', g) ensures t in CommittedOn(db, g) {
      assert t in db.txns && TxnEvolves(db, db.txns[t], db'.txns[t]) && TxnOk(db, t);
    }
  }

  lemma CutClient(s: State, db': Cluster)
    requires DbInv(s.db) && DrainInv(s) && CutInv(s) && Evolves(s.db, db')
    ensures CutInv(s.(db := db'))
  {
    forall g | g in Shards(s.ctl) && s.ctl.phase >= POINTING
      ensures CommittedOn(s.db, g) <= CommittedOn(db', g)
      ensures Held(s, g) ==> CommittedOn(db', g) == CommittedOn(s.db, g)
    {
      CommittedGrows(s.db, db', g);
      if Held(s, g) {
        assert WritersGone(s.ctl, g) && PreparedGone(s.ctl, g);
        QuietCommitsNothing(s.db, db', g);
      }
    }
  }

  lemma SettledClient(s: State, db': Cluster)
    requires DbInv(s.db) && ControlOk(s) && SettledInv(s) && Evolves(s.db, db')
    ensures SettledInv(s.(db := db'))
  {
    if Settled(s.ctl) {
      forall x | x in db'.decisions && db'.decisions[x].seqno <= s.ctl.before
        ensures db'.decisions[x].fate != Preparing
        ensures forall t | t in db'.txns && db'.txns[t].gid == Some(x) && PreparedGone(s.ctl, db'.txns[t].group) ::
             db'.txns[t].status != Prepared
      {
        assert x in s.db.decisions && DecisionEvolves(s.db.decisions[x], db'.decisions[x]);
        forall t | t in db'.txns && db'.txns[t].gid == Some(x) && PreparedGone(s.ctl, db'.txns[t].group)
          ensures db'.txns[t].status != Prepared
        {
          if t in s.db.txns { assert TxnEvolves(s.db, s.db.txns[t], db'.txns[t]) && TxnOk(s.db, t); }
        }
      }
    }
  }

  lemma PointHoldsClient(s: State, db': Cluster, g: Group)
    requires DbInv(s.db) && ControlOk(s) && SettledInv(s) && Evolves(s.db, db')
    requires s.ctl.phase >= POINTING && g in s.ctl.cut && PointHolds(s, g)
    ensures PointHolds(s.(db := db'), g)
  {
    CommittedGrows(s.db, db', g);
    forall x | x in db'.decisions && db'.decisions[x].seqno <= s.ctl.before
               && db'.decisions[x].fate == Commit && g in db'.decisions[x].participants
      ensures g in db'.decisions[x].branch && db'.decisions[x].branch[g] in s.ctl.cut[g]
    {
      assert x in s.db.decisions && DecisionEvolves(s.db.decisions[x], db'.decisions[x]);
    }
  }

  lemma PointClient(s: State, db': Cluster)
    requires DbInv(s.db) && ControlOk(s) && SettledInv(s) && PointInv(s) && Evolves(s.db, db')
    ensures PointInv(s.(db := db'))
  {
    if s.ctl.phase >= POINTING {
      forall g | g in s.ctl.cut && g in s.ctl.groups ensures PointHolds(s.(db := db'), g) {
        PointHoldsClient(s, db', g);
      }
    }
    if s.ctl.phase >= VERIFYING {
      forall g | g in s.ctl.cut ensures PointBounded(s.(db := db'), g) {
        assert PointBounded(s, g) && PointHolds(s, g);
        forall t | t in s.ctl.cut[g] && t in db'.txns && Coordinated(db', db'.txns[t])
          ensures db'.decisions[db'.txns[t].gid.value].seqno <= s.ctl.before
        {
          assert t in s.db.txns && TxnEvolves(s.db, s.db.txns[t], db'.txns[t]);
        }
      }
    }
  }

  // ------------------------------------------- the barrier's steps keep them

  /** The step completes its phase. */
  predicate Completes(s: State, a: OwnAction) {
    a.ReadWatermark? || a.Advance? || (a.RereadWatermark? && s.db.watermark <= s.ctl.before)
  }

  predicate FoundQuiet(s: State, g: Group) {
    g in s.ctl.pausedAt && g in s.db.paused && WritersSince(s.db, g, s.ctl.pausedAt[g]) == {}
  }

  predicate Fails(s: State, a: OwnAction) {
    || a.Fail? || (a.RereadWatermark? && s.db.watermark > s.ctl.before)
    || (a.VerifyFence? && s.fence.owner != s.ctl.token) || (a.Verify? && !FoundQuiet(s, a.g))
  }

  /** A step of the barrier, field by field. */
  ghost predicate OwnEffect(s: State, a: OwnAction, s': State) {
    var c, c' := s.ctl, s'.ctl;
    && s'.fence == s.fence && s'.db == s.db.(paused := s'.db.paused)
    && s'.db.paused == (if a.ApplyPause? then s.db.paused + {a.g} else s.db.paused)
    && c'.groups == c.groups && c'.token == c.token && c'.restored == c.restored && c'.unseen == c.unseen && c'.rivalled == c.rivalled
    && c'.pausedAt == (if a.ConfirmPause? then c.pausedAt[a.g := Clock(s.db, a.g)] else c.pausedAt)
    && c'.before == (if a.ReadWatermark? then s.db.watermark else c.before)
    && c'.cut == (if a.CreatePoint? then c.cut[a.g := CommittedOn(s.db, a.g)] else c.cut)
    && c'.ours == (c.ours || (a.VerifyFence? && s.fence.owner == c.token))
    && c'.verified == (if a.Verify? && FoundQuiet(s, a.g) then c.verified + {a.g} else c.verified)
    && c'.phase == (if Completes(s, a) then c.phase + 1 else if Fails(s, a) then FAILED else c.phase)
    && c'.origin == (if Completes(s, a) && c'.phase == POINTING then map g | g in Shards(c) :: CommittedOn(s.db, g) else c.origin)
    && OwnPolls(s, a, s')
  }

  /** What it makes of the polling pass in progress. */
  ghost predicate OwnPolls(s: State, a: OwnAction, s': State) {
    var c, c' := s.ctl, s'.ctl;
    && (Completes(s, a) ==> !c'.polled && c'.passed == {})
    && (a.SeePreparing? ==> c'.passed == {} && (c'.polled <==> PreparingRows(s.db) == {}))
    && (a.SeePrepared? ==> c'.passed == (if PreparedOn(s.db, a.g) == {} then c.passed + {a.g} else {}))
    && (a.SeePrepared? ==> c'.polled == (c.polled && PreparedOn(s.db, a.g) == {}))
    && (a.SeeWriters? && a.g in c.pausedAt ==>
          c'.passed == (if WritersSince(s.db, a.g, c.pausedAt[a.g]) == {} then c.passed + {a.g} else {}))
    && (!Completes(s, a) && !a.SeePreparing? && !a.SeePrepared? && !a.SeeWriters? ==> c'.polled == c.polled && c'.passed == c.passed)
  }

  lemma OwnTakesEffect(s: State, a: OwnAction)
    requires CanOwn(s, a)
    ensures OwnEffect(s, a, DoOwn(s, a))
  {
    OwnTakesPolls(s, a);
  }

  lemma OwnTakesPolls(s: State, a: OwnAction)
    requires CanOwn(s, a)
    ensures OwnPolls(s, a, DoOwn(s, a))
  {
  }

  lemma ControlStep(s: State, a: OwnAction, s': State)
    requires ControlOk(s) && CanOwn(s, a) && OwnEffect(s, a, s')
    ensures ControlOk(s')
  {
  }

  lemma FenceStep(s: State, a: OwnAction, s': State)
    requires FenceOk(s) && CanOwn(s, a) && OwnEffect(s, a, s')
    ensures FenceOk(s')
  {
  }

  /** An empty writer count since the pause means no read-write transaction is open. */
  lemma WritersGoneMeansNone(s: State, g: Group)
    requires DbInv(s.db) && PauseInv(s) && Held(s, g) && WritersSince(s.db, g, s.ctl.pausedAt[g]) == {}
    ensures NoWriter(s.db, g)
  {
    forall t | t in s.db.txns && s.db.txns[t].group == g
      ensures !(s.db.txns[t].status == Open && s.db.txns[t].readWrite)
    {
      assert TxnOk(s.db, t) && t !in WritersSince(s.db, g, s.ctl.pausedAt[g]);
    }
  }

  lemma PauseBarrier(s: State, a: OwnAction, s': State)
    requires DbInv(s.db) && PauseInv(s) && CanOwn(s, a) && OwnEffect(s, a, s')
    ensures PauseInv(s')
  {
    if a.ConfirmPause? {
      forall t | t in s.db.txns ensures TxnOk(s.db, t) {}
    }
  }

  lemma DrainBarrier(s: State, a: OwnAction, s': State, g: Group)
    requires DbInv(s.db) && ControlOk(s) && PauseInv(s) && DrainInv(s) && CanOwn(s, a) && OwnEffect(s, a, s')
    requires Held(s', g)
    ensures WritersGone(s'.ctl, g) ==> NoWriter(s.db, g)
    ensures PreparedGone(s'.ctl, g) && g in Shards(s.ctl) ==> NoPreparedWriter(s.db, g)
  {
    if a.ConfirmPause? && a.g == g {
    } else if a.SeeWriters? && a.g == g {
      if WritersSince(s.db, g, s.ctl.pausedAt[g]) == {} { WritersGoneMeansNone(s, g); }
    } else if a.SeePrepared? && a.g == g {
      if PreparedOn(s.db, g) == {} {
        forall t | t in s.db.txns && s.db.txns[t].group == g ensures s.db.txns[t].status != Prepared {
          assert t !in PreparedOn(s.db, g);
        }
      }
    } else {
      assert Held(s, g);
    }
  }

  lemma DrainsBarrier(s: State, a: OwnAction, s': State)
    requires DbInv(s.db) && ControlOk(s) && PauseInv(s) && DrainInv(s) && CanOwn(s, a) && OwnEffect(s, a, s')
    ensures DrainInv(s')
  {
    BarrierKeepsDb(s, a, s');
    forall g | Held(s', g)
      ensures WritersGone(s'.ctl, g) ==> NoWriter(s'.db, g)
      ensures PreparedGone(s'.ctl, g) && g in Shards(s'.ctl) ==> NoPreparedWriter(s'.db, g)
    {
      DrainBarrier(s, a, s', g);
    }
  }

  /** The barrier touches no transaction and no decision. */
  lemma BarrierKeepsDb(s: State, a: OwnAction, s': State)
    requires DbInv(s.db) && CanOwn(s, a) && OwnEffect(s, a, s')
    ensures DbInv(s'.db) && s'.ctl.groups == s.ctl.groups
    ensures s'.db.txns == s.db.txns && s'.db.decisions == s.db.decisions
  {
    var db' := s'.db;
    forall t | t in db'.txns ensures TxnOk(db', t) { assert TxnOk(s.db, t); }
    forall x | x in db'.decisions ensures DecisionOk(db', x) {
      assert DecisionOk(s.db, x);
      forall p | p in db'.decisions[x].branch ensures BranchOk(db', x, p) { assert BranchOk(s.db, x, p); }
    }
  }

  lemma CutBarrier(s: State, a: OwnAction, s': State)
    requires ControlOk(s) && FenceOk(s) && CutInv(s) && CanOwn(s, a) && OwnEffect(s, a, s')
    ensures CutInv(s')
  {
  }

  lemma SettledBarrier(s: State, a: OwnAction, s': State)
    requires DbInv(s.db) && ControlOk(s) && SettledInv(s) && CanOwn(s, a) && OwnEffect(s, a, s')
    ensures SettledInv(s')
  {
    if a.SeePreparing? && PreparingRows(s.db) == {} {
      forall x | x in s.db.decisions ensures s.db.decisions[x].fate != Preparing {
        assert DecisionOk(s.db, x) && x !in PreparingRows(s.db);
      }
    } else if a.SeePrepared? && PreparedOn(s.db, a.g) == {} {
      forall t | t in s.db.txns && s.db.txns[t].group == a.g ensures s.db.txns[t].status != Prepared {
        assert t !in PreparedOn(s.db, a.g);
      }
    }
  }

  /** Taking g's restore point catches every commit decided up to the watermark. */
  lemma NewPointHolds(s: State, s': State, g: Group)
    requires DbInv(s.db) && ControlOk(s) && SettledInv(s) && CanOwn(s, CreatePoint(g)) && OwnEffect(s, CreatePoint(g), s')
    ensures PointHolds(s', g)
  {
    forall x | x in s.db.decisions && s.db.decisions[x].seqno <= s.ctl.before
               && s.db.decisions[x].fate == Commit && g in s.db.decisions[x].participants
      ensures g in s.db.decisions[x].branch && s.db.decisions[x].branch[g] in CommittedOn(s.db, g)
    {
      assert DecisionOk(s.db, x) && BranchOk(s.db, x, g);
    }
  }

  lemma PointHoldsBarrier(s: State, a: OwnAction, s': State, g: Group)
    requires DbInv(s.db) && ControlOk(s) && SettledInv(s) && PointInv(s) && CanOwn(s, a) && OwnEffect(s, a, s')
    requires s'.ctl.phase >= POINTING && g in s'.ctl.cut && g in s.ctl.groups
    ensures PointHolds(s', g)
  {
    if a.CreatePoint? && a.g == g {
      NewPointHolds(s, s', g);
    } else {
      assert PointHolds(s, g);
    }
  }

  lemma PointBoundedReread(s: State, a: OwnAction, s': State, g: Group)
    requires DbInv(s.db) && ControlOk(s) && PointInv(s) && a.RereadWatermark? && CanOwn(s, a) && OwnEffect(s, a, s')
    requires s'.ctl.phase >= VERIFYING && g in s'.ctl.cut
    ensures PointBounded(s', g)
  {
    forall x | x in s.db.decisions ensures DecisionOk(s.db, x) {}
  }

  lemma PointBoundedBarrier(s: State, a: OwnAction, s': State, g: Group)
    requires DbInv(s.db) && ControlOk(s) && PointInv(s) && CanOwn(s, a) && OwnEffect(s, a, s')
    requires s'.ctl.phase >= VERIFYING && g in s'.ctl.cut
    ensures PointBounded(s', g)
  {
    if a.RereadWatermark? {
      PointBoundedReread(s, a, s', g);
    } else {
      assert PointBounded(s, g);
    }
  }

  lemma PointBarrier(s: State, a: OwnAction, s': State)
    requires DbInv(s.db) && ControlOk(s) && SettledInv(s) && PointInv(s) && CanOwn(s, a) && OwnEffect(s, a, s')
    requires s'.ctl.groups == s.ctl.groups
    ensures PointInv(s')
  {
    if s'.ctl.phase >= POINTING {
      forall g | g in s'.ctl.cut && g in s'.ctl.groups ensures PointHolds(s', g) { PointHoldsBarrier(s, a, s', g); }
    }
    if s'.ctl.phase >= VERIFYING {
      forall g | g in s'.ctl.cut ensures PointBounded(s', g) { PointBoundedBarrier(s, a, s', g); }
    }
  }

  lemma ClientStep(s: State, a: ClientAction)
    requires Inv(s) && CanDo(s.db, a)
    ensures Inv(s.(db := DoClient(s.db, a)))
  {
    var db' := DoClient(s.db, a);
    ClientEvolves(s.db, a);
    DbStep(s.db, a);
    DrainClient(s, db');
    CutClient(s, db');
    SettledClient(s, db');
    PointClient(s, db');
  }

  lemma BarrierStep(s: State, a: OwnAction)
    requires Inv(s) && CanOwn(s, a)
    ensures Inv(DoOwn(s, a))
  {
    var s' := DoOwn(s, a);
    OwnTakesEffect(s, a);
    ControlStep(s, a, s');
    FenceStep(s, a, s');
    BarrierKeepsDb(s, a, s');
    PauseBarrier(s, a, s');
    DrainsBarrier(s, a, s');
    CutBarrier(s, a, s');
    SettledBarrier(s, a, s');
    PointBarrier(s, a, s');
  }

  /** Another actor's step touches no transaction, and lets no pause that was lost count
      as held. */
  lemma OtherStep(s: State, o: OtherAction)
    requires Inv(s) && CanOther(s, o)
    ensures Inv(DoOther(s, o))
  {
    var s' := DoOther(s, o);
    OtherKeepsDb(s, o);
    OtherKeepsControl(s, o);
    OtherKeepsFence(s, o);
    forall g | Held(s', g) ensures Held(s, g) {
      OtherHoldsNoMore(s, o, g);
    }
    OtherKeepsPauses(s, s');
    OtherKeepsPoints(s, s');
  }

  lemma OtherKeepsControl(s: State, o: OtherAction)
    requires ControlOk(s) && CanOther(s, o)
    ensures ControlOk(DoOther(s, o))
  {
  }

  lemma OtherKeepsFence(s: State, o: OtherAction)
    requires FenceOk(s) && CanOther(s, o)
    ensures FenceOk(DoOther(s, o))
  {
  }

  lemma OtherHoldsNoMore(s: State, o: OtherAction, g: Group)
    requires CanOther(s, o) && Held(DoOther(s, o), g)
    ensures Held(s, g)
  {
  }

  lemma OtherKeepsPauses(s: State, s': State)
    requires PauseInv(s) && DrainInv(s) && CutInv(s) && SamePoints(s, s') && forall g | Held(s', g) :: Held(s, g)
    ensures PauseInv(s') && DrainInv(s') && CutInv(s')
  {
    forall g ensures CommittedOn(s'.db, g) == CommittedOn(s.db, g) {
      SameCommitted(s.db, s'.db, g);
    }
  }

  lemma OtherKeepsDb(s: State, o: OtherAction)
    requires DbInv(s.db) && CanOther(s, o)
    ensures DbInv(DoOther(s, o).db) && SamePoints(s, DoOther(s, o))
  {
    var db' := DoOther(s, o).db;
    forall t | t in db'.txns ensures TxnOk(db', t) { assert TxnOk(s.db, t); }
    forall x | x in db'.decisions ensures DecisionOk(db', x) {
      assert DecisionOk(s.db, x);
      forall p | p in db'.decisions[x].branch ensures BranchOk(db', x, p) { assert BranchOk(s.db, x, p); }
    }
  }

  /** The same transactions, decisions and barrier but for its history of pauses. */
  predicate SamePoints(s: State, s': State) {
    && s'.db == s.db.(paused := s'.db.paused)
    && s'.ctl == s.ctl.(restored := s'.ctl.restored, unseen := s'.ctl.unseen, rivalled := s'.ctl.rivalled)
    && s.ctl.restored <= s'.ctl.restored && s.ctl.unseen <= s'.ctl.unseen
  }

  lemma OtherKeepsPoints(s: State, s': State)
    requires SettledInv(s) && PointInv(s) && SamePoints(s, s')
    ensures SettledInv(s') && PointInv(s')
  {
    forall g | g in s'.ctl.cut && g in s'.ctl.groups && s'.ctl.phase >= POINTING ensures PointHolds(s', g) {
      assert PointHolds(s, g);
      assert CommittedOn(s'.db, g) == CommittedOn(s.db, g);
    }
    forall g | g in s'.ctl.cut && s'.ctl.phase >= VERIFYING ensures PointBounded(s', g) {
      assert PointBounded(s, g);
    }
  }

  lemma InvStep(s: State, a: Action)
    requires Inv(s) && Enabled(s, a)
    ensures Inv(Do(s, a))
  {
    if a.Client? { ClientStep(s, a.c); } else if a.Other? { OtherStep(s, a.o); } else { BarrierStep(s, a.b); }
  }

  lemma {:induction false} RunKeepsInv(ss: seq<State>, i: nat)
    requires IsRun(ss) && i < |ss|
    ensures Inv(ss[i])
  {
    if i > 0 {
      RunKeepsInv(ss, i - 1);
      assert StepAt(ss, i);
      var a :| Enabled(ss[i-1], a) && ss[i] == Do(ss[i-1], a);
      InvStep(ss[i-1], a);
    }
  }

  // ------------------------------------------------------------ theorems

  /** Once the second drain is over, no shard whose pause held has a transaction
      that can still write, or a prepared one that wrote: in every state of every
      run, however clients, coordinator and servers interleave with the polls. */
  lemma QuietAfterSecondDrain(ss: seq<State>, i: nat, g: Group)
    requires IsRun(ss) && i < |ss|
    requires ss[i].ctl.phase > REDRAINING && g in Shards(ss[i].ctl) && Held(ss[i], g)
    ensures NoWriter(ss[i].db, g) && NoPreparedWriter(ss[i].db, g)
  {
    RunKeepsInv(ss, i);
  }

  /** Transaction t on g is one a look at the writers of g must find: it is open, and has
      written, or began by the time of the pause and is not the controller's own copy. */
  predicate CouldWrite(x: Txn, g: Group, since: nat) {
    x.group == g && x.status == Open && (x.wrote || (x.start <= since && !x.copy))
  }

  /** The verification passes a shard exactly when it is paused and has no such
      transaction, whatever happened to its pause before. */
  lemma VerifyPassesIff(s: State, g: Group)
    requires CanOwn(s, Verify(g))
    ensures DoOwn(s, Verify(g)).ctl.phase != FAILED <==>
      g in s.db.paused && forall t | t in s.db.txns :: !CouldWrite(s.db.txns[t], g, s.ctl.pausedAt[g])
    ensures g in DoOwn(s, Verify(g)).ctl.verified <==> DoOwn(s, Verify(g)).ctl.phase != FAILED
  {
    forall t ensures t in WritersSince(s.db, g, s.ctl.pausedAt[g]) <==>
      t in s.db.txns && CouldWrite(s.db.txns[t], g, s.ctl.pausedAt[g]) {
    }
  }

  /** A writer drain passes a shard exactly when it has none. */
  lemma DrainPassesIff(s: State, g: Group)
    requires CanOwn(s, SeeWriters(g))
    ensures g in DoOwn(s, SeeWriters(g)).ctl.passed <==>
      forall t | t in s.db.txns :: !CouldWrite(s.db.txns[t], g, s.ctl.pausedAt[g])
  {
    forall t ensures t in WritersSince(s.db, g, s.ctl.pausedAt[g]) <==>
      t in s.db.txns && CouldWrite(s.db.txns[t], g, s.ctl.pausedAt[g]) {
    }
  }

  lemma VerifiedByVerify(s: State, a: Action, g: Group)
    requires Enabled(s, a) && g !in s.ctl.verified && g in Do(s, a).ctl.verified
    ensures a == Own(Verify(g)) && DoOwn(s, Verify(g)).ctl.phase != FAILED
  {
    if a.Own? {
      OwnTakesEffect(s, a.b);
    }
  }

  /** In every run, at the step at which a shard enters the verified ones it is paused and
      no transaction that wrote is open on it, whatever happened to its pause before. */
  lemma VerifiedHasNoWriter(ss: seq<State>, i: nat, g: Group, t: TxnId)
    requires IsRun(ss) && 0 < i < |ss| && g !in ss[i-1].ctl.verified && g in ss[i].ctl.verified
    requires t in ss[i].db.txns && ss[i].db.txns[t].group == g && ss[i].db.txns[t].wrote
    ensures g in ss[i].db.paused && ss[i].db.txns[t].status != Open
  {
    assert StepAt(ss, i);
    var a :| Enabled(ss[i-1], a) && ss[i] == Do(ss[i-1], a);
    VerifiedByVerify(ss[i-1], a, g);
    VerifyPassesIff(ss[i-1], g);
    OwnTakesEffect(ss[i-1], Verify(g));
  }

  /** What any step does to a barrier's restore points, to what is committed, and to a
      barrier whose fence another has raised. */
  ghost predicate Moves(s: State, s': State) {
    && s'.ctl.groups == s.ctl.groups
    && (forall g :: CommittedOn(s.db, g) <= CommittedOn(s'.db, g))
    && (s.ctl.phase == FAILED ==> s'.ctl.phase == FAILED)
    && (s.ctl.phase >= POINTING ==>
          s'.ctl.origin == s.ctl.origin && (s'.ctl.phase == FAILED || s'.ctl.phase >= POINTING))
    && (s.ctl.phase < POINTING <= s'.ctl.phase ==>
          s'.ctl.origin == map g | g in Shards(s'.ctl) :: CommittedOn(s'.db, g))
    && (Rivalled(s) ==> Rivalled(s'))
  }

  /** Another barrier has raised the fence, and the verification has not read it as ours. */
  predicate Rivalled(s: State) {
    s.fence.rival && !s.ctl.ours
  }

  lemma ClientMoves(s: State, a: ClientAction)
    requires Inv(s) && CanDo(s.db, a)
    ensures Moves(s, s.(db := DoClient(s.db, a)))
  {
    ClientEvolves(s.db, a);
    forall g ensures CommittedOn(s.db, g) <= CommittedOn(DoClient(s.db, a), g) {
      CommittedGrows(s.db, DoClient(s.db, a), g);
    }
  }

  lemma SameCommitted(db: Cluster, db': Cluster, g: Group)
    requires db'.txns == db.txns
    ensures CommittedOn(db', g) == CommittedOn(db, g)
  {
  }

  lemma OtherMoves(s: State, o: OtherAction)
    requires Inv(s) && CanOther(s, o)
    ensures Moves(s, DoOther(s, o))
  {
    forall g ensures CommittedOn(s.db, g) <= CommittedOn(DoOther(s, o).db, g) {
      SameCommitted(s.db, DoOther(s, o).db, g);
    }
  }

  lemma OwnMoves(s: State, a: OwnAction, s': State)
    requires Inv(s) && CanOwn(s, a) && OwnEffect(s, a, s')
    ensures Moves(s, s')
  {
    forall g ensures CommittedOn(s'.db, g) == CommittedOn(s.db, g) {
      SameCommitted(s.db, s'.db, g);
    }
  }

  lemma StepMoves(s: State, a: Action)
    requires Inv(s) && Enabled(s, a)
    ensures Moves(s, Do(s, a))
  {
    match a
    case Client(c) => ClientMoves(s, c);
    case Other(o) => OtherMoves(s, o);
    case Own(b) =>
      OwnTakesEffect(s, b);
      OwnMoves(s, b, DoOwn(s, b));
  }

  ghost predicate MovesOn(ss: seq<State>) {
    forall i | 0 < i < |ss| :: Moves(ss[i-1], ss[i])
  }

  lemma RunMoves(ss: seq<State>)
    requires IsRun(ss)
    ensures MovesOn(ss)
  {
    forall i | 0 < i < |ss| ensures Moves(ss[i-1], ss[i]) {
      RunKeepsInv(ss, i - 1);
      assert StepAt(ss, i);
      var a :| Enabled(ss[i-1], a) && ss[i] == Do(ss[i-1], a);
      StepMoves(ss[i-1], a);
    }
  }

  /** The state in which the barrier could take its first restore point. */
  lemma {:induction false} OriginIsAnInstant(ss: seq<State>, i: nat) returns (k: nat)
    requires MovesOn(ss) && i < |ss| && ss[0].ctl.phase < POINTING <= ss[i].ctl.phase
    ensures k <= i && ss[i].ctl.origin == map g | g in Shards(ss[i].ctl) :: CommittedOn(ss[k].db, g)
  {
    assert Moves(ss[i-1], ss[i]);
    if ss[i-1].ctl.phase >= POINTING {
      k := OriginIsAnInstant(ss, i - 1);
    } else {
      k := i;
    }
  }

  /** From the first restore point on a barrier moves forward or fails, and what
      is committed only grows. */
  lemma {:induction false} OriginIsFixed(ss: seq<State>, i: nat, j: nat)
    requires MovesOn(ss) && i <= j < |ss| && ss[i].ctl.phase >= POINTING
    ensures ss[j].ctl.phase == FAILED || ss[j].ctl.phase >= POINTING
    ensures ss[j].ctl.phase != FAILED ==> ss[j].ctl.origin == ss[i].ctl.origin
    ensures ss[j].ctl.groups == ss[i].ctl.groups
    ensures forall g :: CommittedOn(ss[i].db, g) <= CommittedOn(ss[j].db, g)
  {
    if i < j {
      assert Moves(ss[j-1], ss[j]);
      OriginIsFixed(ss, i, j - 1);
    }
  }

  /** Every shard's restore point holds exactly what the shard had committed then. */
  predicate PointsAre(c: Control, db: Cluster) {
    forall g | g in Shards(c) :: g in c.cut && c.cut[g] == CommittedOn(db, g)
  }

  /** A certified restore point is one instant of the cluster: there is a single
      moment of the run at which every shard had committed exactly what its own
      restore point holds, although the points were taken one shard at a time.
      The one thing the verification at the end cannot see is a pause that was lost
      and put back, before its shard was looked at, by an actor that had not raised
      the fence before it was looked at. */
  lemma CertifiedPointIsOneInstant(ss: seq<State>, i: nat) returns (k: nat)
    requires IsRun(ss) && i < |ss| && ss[i].ctl.phase == CERTIFIED && ss[i].ctl.unseen == {}
    ensures k <= i
    ensures PointsAre(ss[i].ctl, ss[k].db)
  {
    RunKeepsInv(ss, i);
    RunMoves(ss);
    k := OriginIsAnInstant(ss, i);
  }

  /** The step puts back a pause that was lost, before the verification has looked at the
      shard. */
  predicate PutsBack(s: State, s': State, g: Group) {
    LostPause(s, g) && g !in s.ctl.verified && g in s'.db.paused
  }

  lemma UnseenStep(s: State, a: Action, g: Group)
    requires Enabled(s, a) && g in Do(s, a).ctl.unseen && g !in s.ctl.unseen
    ensures PutsBack(s, Do(s, a), g)
  {
    if a.Own? { OwnTakesEffect(s, a.b); }
  }

  ghost predicate UnseenMoves(s: State, s': State) {
    forall g | g in s'.ctl.unseen && g !in s.ctl.unseen :: PutsBack(s, s', g)
  }

  ghost predicate UnseenMovesOn(ss: seq<State>) {
    ss != [] && ss[0].ctl.unseen == {} && forall i | 0 < i < |ss| :: UnseenMoves(ss[i-1], ss[i])
  }

  lemma RunMovesUnseen(ss: seq<State>)
    requires IsRun(ss)
    ensures UnseenMovesOn(ss)
  {
    forall i | 0 < i < |ss| ensures UnseenMoves(ss[i-1], ss[i]) {
      assert StepAt(ss, i);
      var a :| Enabled(ss[i-1], a) && ss[i] == Do(ss[i-1], a);
      forall g | g in ss[i].ctl.unseen && g !in ss[i-1].ctl.unseen ensures PutsBack(ss[i-1], ss[i], g) {
        UnseenStep(ss[i-1], a, g);
      }
    }
  }

  predicate PutBackAt(ss: seq<State>, j: nat, g: Group)
    requires 0 < j < |ss|
  {
    PutsBack(ss[j-1], ss[j], g)
  }

  lemma {:induction false} UnseenWasPutBack(ss: seq<State>, i: nat, g: Group) returns (j: nat)
    requires UnseenMovesOn(ss) && i < |ss| && g in ss[i].ctl.unseen
    ensures 0 < j <= i && PutBackAt(ss, j, g)
  {
    assert i > 0 && UnseenMoves(ss[i-1], ss[i]);
    if g in ss[i-1].ctl.unseen {
      j := UnseenWasPutBack(ss, i - 1, g);
    } else {
      j := i;
    }
  }

  /** The same told from the states alone: a certified point is one instant of every run in
      which no lost pause was put back before its shard was looked at. */
  lemma CertifiedUnlessPutBack(ss: seq<State>, i: nat) returns (k: nat)
    requires IsRun(ss) && i < |ss| && ss[i].ctl.phase == CERTIFIED
    requires forall j: nat, g | 0 < j <= i :: !PutBackAt(ss, j, g)
    ensures k <= i && PointsAre(ss[i].ctl, ss[k].db)
  {
    if ss[i].ctl.unseen != {} {
      var g :| g in ss[i].ctl.unseen;
      RunMovesUnseen(ss);
      var j := UnseenWasPutBack(ss, i, g);
    }
    k := CertifiedPointIsOneInstant(ss, i);
  }

  /** A transaction that begins on a paused shard after the moment the pause was confirmed
      never holds a drain up: it can only read. */
  lemma LaterReadersHoldNothingUp(s: State, g: Group, t: TxnId, copy: bool)
    requires g in s.db.paused && g in s.ctl.pausedAt && s.ctl.pausedAt[g] <= Clock(s.db, g) && t !in s.db.txns
    ensures var db := DoClient(DoClient(s.db, Tick(g)), Begin(t, g, copy));
      !CouldWrite(db.txns[t], g, s.ctl.pausedAt[g]) && !CanDo(db, Write(t))
  {
  }

  /** No shard commits anything between the first and the last restore point, nor
      until its pause has been verified. */
  lemma NoCommitInTheWindow(ss: seq<State>, i: nat, j: nat, g: Group)
    requires IsRun(ss) && i <= j < |ss| && ss[i].ctl.phase >= POINTING && ss[j].ctl.phase != FAILED
    requires g in Shards(ss[j].ctl) && Held(ss[j], g)
    ensures CommittedOn(ss[i].db, g) == CommittedOn(ss[j].db, g)
  {
    RunKeepsInv(ss, i);
    RunKeepsInv(ss, j);
    RunMoves(ss);
    OriginIsFixed(ss, i, j);
  }

  /** A barrier that raises the fence before this one's verification has read it is never
      missed: this one is not certified, whatever becomes of the fence and the pauses. */
  lemma RivalIsDetected(ss: seq<State>, i: nat, j: nat)
    requires IsRun(ss) && i <= j < |ss| && Rivalled(ss[i])
    ensures Rivalled(ss[j]) && ss[j].ctl.phase != CERTIFIED
  {
    RunMoves(ss);
    RivalStays(ss, i, j);
    NotCertified(ss, j);
  }

  lemma {:induction false} RivalStays(ss: seq<State>, i: nat, j: nat)
    requires MovesOn(ss) && i <= j < |ss| && Rivalled(ss[i])
    ensures Rivalled(ss[j])
  {
    if i < j {
      RivalStays(ss, i, j - 1);
      assert Moves(ss[j-1], ss[j]);
    }
  }

  lemma NotCertified(ss: seq<State>, i: nat)
    requires IsRun(ss) && i < |ss| && Rivalled(ss[i])
    ensures ss[i].ctl.phase != CERTIFIED
  {
    RunKeepsInv(ss, i);
  }

  /** The fence is no longer this barrier's, and the verification has not read it as ours. */
  predicate LostFence(s: State) {
    s.ctl.token != "" && s.fence.owner != s.ctl.token && !s.ctl.ours
  }

  lemma LostFenceStep(s: State, a: Action)
    requires Enabled(s, a) && LostFence(s)
    ensures LostFence(Do(s, a))
  {
    if a.Own? { OwnTakesEffect(s, a.b); }
  }

  lemma LostFenceStepOfRun(ss: seq<State>, i: nat)
    requires IsRun(ss) && 0 < i < |ss| && LostFence(ss[i-1])
    ensures LostFence(ss[i])
  {
    assert StepAt(ss, i);
    var a :| Enabled(ss[i-1], a) && ss[i] == Do(ss[i-1], a);
    LostFenceStep(ss[i-1], a);
  }

  lemma {:induction false} LostFenceStays(ss: seq<State>, i: nat, j: nat)
    requires IsRun(ss) && i <= j < |ss| && LostFence(ss[i])
    ensures LostFence(ss[j])
  {
    if i < j {
      LostFenceStays(ss, i, j - 1);
      LostFenceStepOfRun(ss, j);
    }
  }

  /** Nor is a recovery or a restore that clears the fence before the verification has
      read it. */
  lemma ClearedFenceIsDetected(ss: seq<State>, i: nat, j: nat)
    requires IsRun(ss) && i < j < |ss| && ss[i+1] == Do(ss[i], Other(ClearFence)) && !ss[i].ctl.ours
    ensures ss[j].ctl.phase != CERTIFIED
  {
    RunKeepsInv(ss, i);
    LostFenceStays(ss, i + 1, j);
    RunKeepsInv(ss, j);
  }

  /** The watermark was read and has not been judged yet. */
  predicate Marked(c: Control) {
    REDRAINING <= c.phase <= REREADING
  }

  lemma MarkStep(s: State, a: Action)
    requires Enabled(s, a) && Marked(Do(s, a).ctl)
    ensures if Marked(s.ctl) then Do(s, a).ctl.before == s.ctl.before
            else s.ctl.phase == MARKING && Do(s, a).ctl.before == s.db.watermark
    ensures s.db.watermark <= Do(s, a).db.watermark
  {
    if a.Own? { OwnTakesEffect(s, a.b); }
  }

  lemma MarkStepOfRun(ss: seq<State>, i: nat)
    requires IsRun(ss) && 0 < i < |ss| && Marked(ss[i].ctl)
    ensures if Marked(ss[i-1].ctl) then ss[i].ctl.before == ss[i-1].ctl.before
            else ss[i-1].ctl.phase == MARKING && ss[i].ctl.before == ss[i-1].db.watermark
    ensures ss[i-1].db.watermark <= ss[i].db.watermark
  {
    assert StepAt(ss, i);
    var a :| Enabled(ss[i-1], a) && ss[i] == Do(ss[i-1], a);
    MarkStep(ss[i-1], a);
  }

  lemma {:induction false} MarkedBefore(ss: seq<State>, i: nat) returns (k: nat)
    requires IsRun(ss) && i < |ss| && Marked(ss[i].ctl)
    ensures k < i && ss[k].ctl.phase == MARKING && ss[i].ctl.before == ss[k].db.watermark <= ss[i].db.watermark
  {
    assert i > 0;
    MarkStepOfRun(ss, i);
    if Marked(ss[i-1].ctl) {
      k := MarkedBefore(ss, i - 1);
    } else {
      k := i - 1;
    }
  }

  /** The second reading of the watermark passes exactly when no decision has been inserted
      since the first one, made between the two drains. */
  lemma RereadPassesIff(ss: seq<State>, i: nat) returns (k: nat)
    requires IsRun(ss) && i < |ss| && ss[i].ctl.phase == REREADING
    ensures k < i && ss[k].ctl.phase == MARKING
    ensures DoOwn(ss[i], RereadWatermark).ctl.phase == (if ss[i].db.watermark == ss[k].db.watermark then VERIFYING else FAILED)
  {
    k := MarkedBefore(ss, i);
  }

  /** The barrier writes to the catalog and never pauses it, nor waits for its writers. */
  lemma CatalogIsNeverPaused(ss: seq<State>, i: nat, a: OwnAction)
    requires IsRun(ss) && i < |ss| && CanOwn(ss[i], a)
    ensures CATALOG in DoOwn(ss[i], a).db.paused <==> CATALOG in ss[i].db.paused
    ensures CATALOG !in ss[i].ctl.pausedAt && a != SeeWriters(CATALOG) && a != Verify(CATALOG)
  {
    RunKeepsInv(ss, i);
    OwnTakesEffect(ss[i], a);
  }

  /** The branch of gid on g is inside g's restore point. */
  ghost predicate InPoint(s: State, gid: Gid, g: Group)
    requires g in s.ctl.cut
  {
    exists t :: t in s.ctl.cut[g] && t in s.db.txns && s.db.txns[t].gid == Some(gid)
  }

  /** At a certified barrier every two-phase transaction of the coordinator is in
      the restore point of each of its participants, or in no restore point at
      all.  This needs no pause: it rests on the decision rows, the watermark read
      twice, and the second drain in between. */
  lemma CertifiedPointIsAtomic(ss: seq<State>, i: nat, gid: Gid)
    requires IsRun(ss) && i < |ss| && ss[i].ctl.phase == CERTIFIED && gid in ss[i].db.decisions
    ensures ss[i].ctl.cut.Keys == ss[i].ctl.groups
    ensures (forall g | g in ss[i].db.decisions[gid].participants * ss[i].ctl.groups :: InPoint(ss[i], gid, g))
            || (forall g | g in ss[i].ctl.groups :: !InPoint(ss[i], gid, g))
  {
    var s := ss[i];
    RunKeepsInv(ss, i);
    var d := s.db.decisions[gid];
    assert DecisionOk(s.db, gid);
    if d.fate == Commit && d.seqno <= s.ctl.before {
      forall g | g in d.participants * s.ctl.groups ensures InPoint(s, gid, g) {
        assert PointHolds(s, g) && BranchOk(s.db, gid, g);
      }
    } else {
      forall g | g in s.ctl.groups ensures !InPoint(s, gid, g) {
        assert PointHolds(s, g) && PointBounded(s, g);
        forall t | t in s.ctl.cut[g] && t in s.db.txns ensures s.db.txns[t].gid != Some(gid) {
          assert TxnOk(s.db, t);
        }
      }
    }
  }

  // ----------------------------------------------- why there are two drains

  lemma Take(ss: seq<State>, a: Action) returns (ss': seq<State>)
    requires IsRun(ss) && Enabled(ss[|ss|-1], a)
    ensures IsRun(ss') && ss <= ss' && ss'[|ss'|-1] == Do(ss[|ss|-1], a)
  {
    ss' := ss + [Do(ss[|ss|-1], a)];
    forall i: nat | 0 < i < |ss'| ensures StepAt(ss', i) {
      if i < |ss| { assert StepAt(ss, i); }
    }
  }

  /** One shard, paused and found without prepared transactions, on which a
      transaction that began before the pause is still open. */
  function OneWriterLeft(phase: Phase): State {
    State(Cluster(map[0 := Txn("s0", 0, true, true, false, Open, None)], map[], 0, {"s0"}, map[]),
          Control({"s0"}, "run", phase, map["s0" := 0], false, {}, 0, map[], false, {}, map[], {}, {}, {}), Fence("run", false))
  }

  lemma PauseWithAWriter() returns (ss: seq<State>)
    ensures IsRun(ss) && ss[|ss|-1] == OneWriterLeft(DRAINING)
  {
    var end := OneWriterLeft(DRAINING);
    var s := end.(db := end.db.(paused := {}), ctl := end.ctl.(phase := PAUSING, pausedAt := map[]));
    assert TxnOk(s.db, 0);
    ss := Take([s], Own(ApplyPause("s0")));
    ss := Take(ss, Own(ConfirmPause("s0")));
    ss := Take(ss, Own(Advance));
  }

  lemma DrainWithAWriter() returns (ss: seq<State>)
    ensures IsRun(ss) && ss[|ss|-1] == OneWriterLeft(DRAINING_WRITERS)
  {
    ss := PauseWithAWriter();
    assert PreparingRows(OneWriterLeft(DRAINING).db) == {} && PreparedOn(OneWriterLeft(DRAINING).db, "s0") == {};
    ss := Take(ss, Own(SeePreparing));
    ss := Take(ss, Own(SeePrepared("s0")));
    ss := Take(ss, Own(Advance));
  }

  /** Taking the points after one drain would not do: a writer that prepares
      after its group's prepared transactions were listed, and before its writers
      were counted, passes both checks. */
  lemma OneDrainIsNotEnough() returns (ss: seq<State>)
    ensures IsRun(ss)
    ensures var s := ss[|ss|-1];
            s.ctl.phase == MARKING && "s0" in Shards(s.ctl) && Held(s, "s0") && !NoPreparedWriter(s.db, "s0")
  {
    ss := DrainWithAWriter();
    ss := Take(ss, Client(Prepare(0, "other")));
    assert WritersSince(ss[|ss|-1].db, "s0", 0) == {};
    ss := Take(ss, Own(SeeWriters("s0")));
    ss := Take(ss, Own(Advance));
    assert ss[|ss|-1].db.txns[0].status == Prepared && ss[|ss|-1].db.txns[0].wrote;
  }

  // ------------------------------------------- why the pause must be its own

  /** A barrier over two shards that are paused since time 0. */
  function TwoShards(txns: map<TxnId, Txn>, paused: set<Group>, phase: Phase, cut: map<Group, set<TxnId>>): State {
    State(Cluster(txns, map[], 0, paused, map[]),
          Control({"s0", "s1"}, "run", phase, map["s0" := 0, "s1" := 0], false, {}, 0, cut, false, {},
                  if phase >= POINTING then map["s0" := {}, "s1" := {}] else map[], {}, {}, {}), Fence("run", false))
  }

  function Wrote(g: Group, status: Status): Txn {
    Txn(g, 0, true, status == Committed, false, status, None)
  }

  lemma PausedTwo() returns (ss: seq<State>)
    ensures IsRun(ss) && ss[|ss|-1] == TwoShards(map[], {"s0", "s1"}, DRAINING, map[])
  {
    var end := TwoShards(map[], {"s0", "s1"}, DRAINING, map[]);
    var s := end.(db := end.db.(paused := {}), ctl := end.ctl.(phase := PAUSING, pausedAt := map[]));
    ss := Take([s], Own(ApplyPause("s0")));
    ss := Take(ss, Own(ApplyPause("s1")));
    ss := Take(ss, Own(ConfirmPause("s0")));
    ss := Take(ss, Own(ConfirmPause("s1")));
    assert ss[|ss|-1].ctl.pausedAt.Keys == {"s0", "s1"};
    ss := Take(ss, Own(Advance));
  }

  lemma DrainedTwo(ss: seq<State>, phase: Phase) returns (ss': seq<State>)
    requires IsRun(ss) && (phase == DRAINING || phase == REDRAINING) && ss[|ss|-1] == TwoShards(map[], {"s0", "s1"}, phase, map[])
    ensures IsRun(ss') && ss'[|ss'|-1] == TwoShards(map[], {"s0", "s1"}, phase + 1, map[])
  {
    var db := ss[|ss|-1].db;
    assert PreparingRows(db) == {} && PreparedOn(db, "s0") == {} && PreparedOn(db, "s1") == {};
    ss' := Take(ss, Own(SeePreparing));
    ss' := Take(ss', Own(SeePrepared("s0")));
    ss' := Take(ss', Own(SeePrepared("s1")));
    assert ss'[|ss'|-1].ctl.passed == {"s0", "s1"};
    ss' := Take(ss', Own(Advance));
  }

  lemma DrainedWritersOfTwo(ss: seq<State>, phase: Phase) returns (ss': seq<State>)
    requires IsRun(ss) && (phase == DRAINING_WRITERS || phase == REDRAINING_WRITERS)
    requires ss[|ss|-1] == TwoShards(map[], {"s0", "s1"}, phase, map[])
    ensures IsRun(ss') && ss'[|ss'|-1] == TwoShards(map[], {"s0", "s1"}, phase + 1, map[])
  {
    var db := ss[|ss|-1].db;
    assert WritersSince(db, "s0", 0) == {} && WritersSince(db, "s1", 0) == {};
    assert CommittedOn(db, "s0") == {} && CommittedOn(db, "s1") == {};
    ss' := Take(ss, Own(SeeWriters("s0")));
    ss' := Take(ss', Own(SeeWriters("s1")));
    assert ss'[|ss'|-1].ctl.passed == {"s0", "s1"};
    ss' := Take(ss', Own(Advance));
  }

  lemma PointingAtTwo() returns (ss: seq<State>)
    ensures IsRun(ss) && ss[|ss|-1] == TwoShards(map[], {"s0", "s1"}, POINTING, map["s0" := {}])
  {
    ss := PausedTwo();
    ss := DrainedTwo(ss, DRAINING);
    ss := DrainedWritersOfTwo(ss, DRAINING_WRITERS);
    ss := Take(ss, Own(ReadWatermark));
    ss := DrainedTwo(ss, REDRAINING);
    ss := DrainedWritersOfTwo(ss, REDRAINING_WRITERS);
    assert CommittedOn(ss[|ss|-1].db, "s0") == {};
    ss := Take(ss, Own(CreatePoint("s0")));
  }

  /** A shard loses its pause, and a transaction commits there. */
  lemma CommitsUnpaused(ss: seq<State>, txns: map<TxnId, Txn>, paused: set<Group>, t: TxnId, g: Group) returns (ss': seq<State>)
    requires IsRun(ss) && ss[|ss|-1] == TwoShards(txns, paused, POINTING, map["s0" := {}]) && t !in txns
    ensures IsRun(ss') && ss <= ss'
    ensures ss'[|ss'|-1] == TwoShards(txns[t := Wrote(g, Committed)], paused - {g}, POINTING, map["s0" := {}])
  {
    ss' := Take(ss, Client(LosePause(g)));
    ss' := Take(ss', Client(Begin(t, g, false)));
    ss' := Take(ss', Client(Write(t)));
    ss' := Take(ss', Client(CommitOpen(t)));
    assert ss'[|ss'|-1].db.txns == txns[t := Wrote(g, Committed)];
  }

  lemma CommittedApart() returns (ss: seq<State>, m: nat)
    ensures IsRun(ss) && m < |ss|
    ensures CommittedOn(ss[m].db, "s0") == {0} && CommittedOn(ss[m].db, "s1") == {}
    ensures ss[|ss|-1] == TwoShards(map[0 := Wrote("s0", Committed), 1 := Wrote("s1", Committed)], {}, POINTING, map["s0" := {}])
  {
    ss := PointingAtTwo();
    ss := CommitsUnpaused(ss, map[], {"s0", "s1"}, 0, "s0");
    m := |ss| - 1;
    var txns: map<TxnId, Txn> := map[0 := Wrote("s0", Committed)];
    assert ss[m].db.txns == txns && {"s0", "s1"} - {"s0"} == {"s1"};
    ss := CommitsUnpaused(ss, txns, {"s1"}, 1, "s1");
    assert txns[1 := Wrote("s1", Committed)] == map[0 := Wrote("s0", Committed), 1 := Wrote("s1", Committed)];
  }

  lemma PointsApart() returns (ss: seq<State>, m: nat)
    ensures IsRun(ss) && m < |ss|
    ensures CommittedOn(ss[m].db, "s0") == {0} && CommittedOn(ss[m].db, "s1") == {}
    ensures ss[|ss|-1] == TwoShards(map[0 := Wrote("s0", Committed), 1 := Wrote("s1", Committed)], {}, VERIFYING, map["s0" := {}, "s1" := {1}])
  {
    ss, m := CommittedApart();
    assert CommittedOn(ss[|ss|-1].db, "s1") == {1};
    ss := Take(ss, Own(CreatePoint("s1")));
    assert ss[|ss|-1].ctl.cut.Keys == {"s0", "s1"};
    ss := Take(ss, Own(Advance));
    ss := Take(ss, Own(RereadWatermark));
  }

  lemma {:induction false} CommittedGrowsOverRun(ss: seq<State>, i: nat, j: nat, g: Group)
    requires MovesOn(ss) && i <= j < |ss|
    ensures CommittedOn(ss[i].db, g) <= CommittedOn(ss[j].db, g)
  {
    if i < j {
      assert Moves(ss[j-1], ss[j]);
      CommittedGrowsOverRun(ss, i, j - 1, g);
    }
  }

  lemma NeverOneInstant(ss: seq<State>, m: nat, c: Control)
    requires IsRun(ss) && m < |ss| && CommittedOn(ss[m].db, "s0") == {0} && CommittedOn(ss[m].db, "s1") == {}
    requires c.groups == {"s0", "s1"} && c.cut == map["s0" := {}, "s1" := {1}]
    ensures forall k | 0 <= k < |ss| :: !PointsAre(c, ss[k].db)
  {
    RunMoves(ss);
    assert "s0" in Shards(c) && "s1" in Shards(c);
    forall k: nat | k < |ss| ensures CommittedOn(ss[k].db, "s0") != {} || CommittedOn(ss[k].db, "s1") != {1} {
      if k <= m {
        CommittedGrowsOverRun(ss, k, m, "s1");
      } else {
        CommittedGrowsOverRun(ss, m, k, "s0");
        assert 0 in CommittedOn(ss[m].db, "s0");
      }
    }
  }

  /** The two ways a lost pause is put back unseen: by a workflow, or by a barrier that
      raises the fence after the verification has read it. */
  lemma PausedAgain(ss: seq<State>, txns: map<TxnId, Txn>, cut: map<Group, set<TxnId>>, byRival: bool) returns (ss': seq<State>)
    requires IsRun(ss) && ss[|ss|-1] == TwoShards(txns, {}, VERIFYING, cut)
    ensures IsRun(ss') && ss <= ss'
    ensures var s, s' := ss[|ss|-1], ss'[|ss'|-1];
      s' == State(s.db.(paused := {"s0", "s1"}),
                  s.ctl.(ours := true, restored := {"s0", "s1"}, unseen := {"s0", "s1"}),
                  if byRival then Fence("rival", true) else s.fence)
  {
    if byRival {
      ss' := Take(ss, Own(VerifyFence));
      ss' := Take(ss', Other(RivalRaise("rival")));
      ss' := Take(ss', Other(RivalPause("s0")));
      ss' := Take(ss', Other(RivalPause("s1")));
    } else {
      ss' := Take(ss, Other(Repause("s0")));
      ss' := Take(ss', Other(Repause("s1")));
      ss' := Take(ss', Own(VerifyFence));
    }
  }

  lemma VerifiedAgain(ss: seq<State>, txns: map<TxnId, Txn>, cut: map<Group, set<TxnId>>, byRival: bool) returns (ss': seq<State>)
    requires IsRun(ss) && ss[|ss|-1] == TwoShards(txns, {}, VERIFYING, cut) && forall t | t in txns :: txns[t].status == Committed
    ensures IsRun(ss') && ss <= ss' && ss'[|ss'|-1].ctl.phase == CERTIFIED
    ensures ss'[|ss'|-1].ctl.groups == {"s0", "s1"} && ss'[|ss'|-1].ctl.cut == cut && ss'[|ss'|-1].fence.rival == byRival
  {
    ss' := PausedAgain(ss, txns, cut, byRival);
    NoneOpen(ss'[|ss'|-1].db, "s0");
    NoneOpen(ss'[|ss'|-1].db, "s1");
    ss' := Verifies(ss', "s0");
    ss' := Verifies(ss', "s1");
    assert ss'[|ss'|-1].ctl.verified == {"s0", "s1"};
    ss' := Take(ss', Own(Advance));
  }

  lemma NoneOpen(db: Cluster, g: Group)
    requires forall t | t in db.txns :: db.txns[t].status == Committed
    ensures WritersSince(db, g, 0) == {}
  {
  }

  /** One shard passes the verification. */
  lemma Verifies(ss: seq<State>, g: Group) returns (ss': seq<State>)
    requires IsRun(ss) && CanOwn(ss[|ss|-1], Verify(g))
    requires var s := ss[|ss|-1]; g in s.db.paused && WritersSince(s.db, g, s.ctl.pausedAt[g]) == {}
    ensures IsRun(ss') && ss <= ss'
    ensures var s := ss[|ss|-1]; ss'[|ss'|-1] == s.(ctl := s.ctl.(verified := s.ctl.verified + {g}))
  {
    ss' := Take(ss, Own(Verify(g)));
  }

  /** The shards' pauses are lost and put back by a workflow, or by a rival barrier that
      begins between the reads of one verification: the barrier is certified although
      its restore points were never one instant. */
  lemma RepausedShardsEvadeVerification(byRival: bool) returns (ss: seq<State>)
    ensures IsRun(ss) && ss[|ss|-1].ctl.phase == CERTIFIED && ss[|ss|-1].fence.rival == byRival
    ensures forall k | 0 <= k < |ss| :: !PointsAre(ss[|ss|-1].ctl, ss[k].db)
  {
    var m, points;
    points, m := PointsApart();
    ss := VerifiedAgain(points, points[|points|-1].db.txns, points[|points|-1].ctl.cut, byRival);
    assert ss[m] == points[m];
    NeverOneInstant(ss, m, ss[|ss|-1].ctl);
  }
}
