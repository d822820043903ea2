/**
 The agent of one member: its startup, its Promote and Demote handlers, and its
 shutdown, step by step, against the lease, the loop that renews it, and PostgreSQL.
 Any step can fail, the process can be killed between any two, PostgreSQL can exit
 and the lease can be lost at any time.  Handlers run one at a time under the
 server's mutex; the shutdown's stop of PostgreSQL does not take it.
 */
module AgentServer {
  datatype Postgres = Down | Standby | Primary

  /** The renewal loop: none, renewing, or ended because the lease was lost. */
  datatype Hold = NoHold | Renewing | Lost

  /** Where the handler that has the mutex is. */
  datatype Handler = Idle | PromoteFenced | PromoteLeased | PromoteHeld | DemoteFenced | DemoteStopped | DemoteReleased

  /** Where the process is: a failed startup is undone in reverse order, and the stop of
      PostgreSQL is among what is undone only once it was ready. */
  datatype Process =
    | Boot | BootLeased | Starting | Ready | Serving
    | Undoing(stopPushed: bool) | UndoingLease(stopped: bool)
    | Stopping | PostgresStopped | Exiting(undone: bool)

  /** `standbySignal` is the file in the data directory that makes PostgreSQL start as a
      standby; `acquired` that this process acquired the lease and has not released it. */
  datatype State = State(postgres: Postgres, standbySignal: bool, epoch: nat, acquired: bool, hold: Hold, fatal: bool,
                         handler: Handler, process: Process)

  /** How starting PostgreSQL ended: not launched, launched but not reported ready, or
      ready. */
  datatype Launch = NotLaunched | LaunchedNotReady | LaunchedReady

  /** How the rejoin of a demoted member ended: before its configuration, with
      whatever signal file the rewind or the clone left, configured but not started, or
      running. */
  datatype Rejoin = NotConfigured(standbySignal: bool) | ConfiguredOnly | StartedAsStandby

  datatype HandlerStep =
    | BeginPromote(epoch: nat)
    | RefuseHolder
    | AcquireForPromote(ok: bool)
    | StartHoldForPromote
    | RunPromotion(promoted: bool)
    | EndPromote
    | BeginDemote(epoch: nat)
    | StopForDemote(ok: bool)
    | ReleaseForDemote(released: bool)
    | FollowForDemote(r: Rejoin)

  datatype ProcessStep =
    | BootStandby
    | BootAcquire(ok: bool)
    | BootHold
    | LaunchPostgres(l: Launch)
    | FailStartup
    | Serve
    | UndoStop(ok: bool)
    | UndoLease(released: bool)
    | BeginShutdown
    | StopPostgres(ok: bool)
    | ReleaseAtShutdown(released: bool)
    | LoseLease
    | PostgresExits
    | Killed

  datatype Action = OfHandler(h: HandlerStep) | OfProcess(p: ProcessStep)

  predicate DemoteAdmitted(s: State, epoch: nat) {
    epoch > s.epoch || (epoch != 0 && epoch == s.epoch && s.postgres == Down)
  }

  predicate HandlerEnabled(s: State, h: HandlerStep) {
    && (s.process == Serving || s.process == Stopping || s.process == PostgresStopped || s.process.Exiting?)
    && match h
       case BeginPromote(e) => s.handler == Idle && s.process == Serving && e > s.epoch
       case RefuseHolder => s.handler == PromoteFenced
       case AcquireForPromote(_) => s.handler == PromoteFenced
       case StartHoldForPromote => s.handler == PromoteLeased
       case RunPromotion(promoted) => s.handler == PromoteHeld && (promoted ==> s.postgres == Standby)
       case EndPromote => s.handler == PromoteHeld
       case BeginDemote(e) => s.handler == Idle && s.process == Serving && DemoteAdmitted(s, e)
       case StopForDemote(_) => s.handler == DemoteFenced
       case ReleaseForDemote(_) => s.handler == DemoteStopped
       case FollowForDemote(_) => s.handler == DemoteReleased
  }

  predicate ProcessEnabled(s: State, p: ProcessStep) {
    match p
    case BootStandby => s.process == Boot && s.standbySignal
    case BootAcquire(_) => s.process == Boot && !s.standbySignal
    case BootHold => s.process == BootLeased
    case LaunchPostgres(_) => s.process == Starting
    case FailStartup => s.process == Ready
    case Serve => s.process == Ready
    case UndoStop(_) => s.process == Undoing(true)
    case UndoLease(_) => s.process == Undoing(false) || s.process.UndoingLease?
    case BeginShutdown => s.process == Serving
    case StopPostgres(_) => s.process == Stopping
    case ReleaseAtShutdown(_) => s.process == PostgresStopped && s.handler == Idle
    case LoseLease => s.hold == Renewing
    case PostgresExits => s.postgres != Down
    case Killed => true
  }

  /** The hold ends and the lease is handed back, if the API server answers. */
  function Released(s: State, released: bool): State {
    s.(hold := NoHold, acquired := s.acquired && !released)
  }

  function DoHandler(s: State, h: HandlerStep): State
    requires HandlerEnabled(s, h)
  {
    match h
    case BeginPromote(e) => s.(epoch := e, handler := PromoteFenced)
    case RefuseHolder => s.(handler := Idle)
    case AcquireForPromote(ok) =>
      // Only when no hold renews it: a second writer could look like a lost lease.
      if s.hold != NoHold then s.(handler := PromoteLeased)
      else if ok then s.(acquired := true, handler := PromoteLeased)
      else s.(handler := Idle)
    case StartHoldForPromote => s.(hold := if s.hold == NoHold then Renewing else s.hold, handler := PromoteHeld)
    case RunPromotion(promoted) => if promoted then s.(postgres := Primary, standbySignal := false) else s
    case EndPromote => s.(handler := Idle)
    case BeginDemote(e) => s.(epoch := e, handler := DemoteFenced)
    case StopForDemote(ok) => if ok then s.(postgres := Down, handler := DemoteStopped) else s.(handler := Idle)
    case ReleaseForDemote(released) => Released(s, released).(handler := DemoteReleased)
    case FollowForDemote(r) =>
      var s' := s.(standbySignal := if r.NotConfigured? then r.standbySignal else true, handler := Idle);
      if r == StartedAsStandby then s'.(postgres := Standby) else s'
  }

  function DoProcess(s: State, p: ProcessStep): State
    requires ProcessEnabled(s, p)
  {
    match p
    case BootStandby => s.(process := Starting)
    case BootAcquire(ok) => if ok then s.(acquired := true, process := BootLeased) else s.(process := Exiting(false))
    case BootHold => s.(hold := Renewing, process := Starting)
    case LaunchPostgres(l) =>
      var s' := s.(process := if l == LaunchedReady then Ready else Undoing(false));
      if l == NotLaunched then s' else s'.(postgres := if s.standbySignal then Standby else Primary)
    case FailStartup => s.(process := Undoing(true))
    case Serve => s.(process := Serving)
    case UndoStop(ok) => s.(postgres := if ok then Down else s.postgres, process := UndoingLease(ok))
    case UndoLease(released) =>
      // Among what is undone only if it was taken.
      if s.acquired then Released(s, released).(process := Exiting(true)) else s.(process := Exiting(true))
    case BeginShutdown => s.(process := Stopping)
    case StopPostgres(ok) => if ok then s.(postgres := Down, process := PostgresStopped) else s.(process := Exiting(false))
    case ReleaseAtShutdown(released) => Released(s, released).(process := Exiting(false))
    case LoseLease => s.(hold := Lost, fatal := true)
    case PostgresExits => s.(postgres := Down, fatal := true)
    case Killed => State(Down, s.standbySignal, s.epoch, false, NoHold, false, Idle, Boot)
  }

  predicate Enabled(s: State, a: Action) {
    match a
    case OfHandler(h) => HandlerEnabled(s, h)
    case OfProcess(p) => ProcessEnabled(s, p)
  }

  function Do(s: State, a: Action): State
    requires Enabled(s, a)
  {
    match a
    case OfHandler(h) => DoHandler(s, h)
    case OfProcess(p) => DoProcess(s, p)
  }

  predicate Init(s: State) {
    s.postgres == Down && !s.acquired && s.hold == NoHold && !s.fatal && s.handler == Idle && s.process == Boot
  }

  predicate StepAt(ss: seq<State>, acts: seq<Action>, i: nat)
    requires |ss| == |acts| + 1 && i < |acts|
  {
    Enabled(ss[i], acts[i]) && ss[i+1] == Do(ss[i], acts[i])
  }

  ghost predicate IsRun(ss: seq<State>, acts: seq<Action>) {
    && |ss| == |acts| + 1 && Init(ss[0])
    && forall i: nat | i < |acts| :: StepAt(ss, acts, i)
  }

  // ---------------------------------------------------------- invariants

  predicate Covered(s: State) {
    s.acquired && (s.hold == Renewing || s.fatal)
  }

  predicate Inv(s: State) {
    && (s.postgres == Primary ==> Covered(s) || s.process == Exiting(true))
    && (s.hold == Lost ==> s.fatal)
    && (s.hold != NoHold ==> s.acquired)
    && (s.handler != Idle ==> s.process == Serving || s.process == Stopping || s.process == PostgresStopped || s.process == Exiting(false))
    && (s.handler == PromoteLeased || s.handler == PromoteHeld ==> s.acquired)
    && (s.handler == PromoteHeld ==> s.hold != NoHold)
    && (s.handler == DemoteStopped || s.handler == DemoteReleased ==> s.postgres == Down)
    && (s.process == PostgresStopped ==> s.postgres != Primary)
    && (s.process == PostgresStopped && (s.handler == PromoteFenced || s.handler == PromoteLeased || s.handler == PromoteHeld) ==> s.postgres == Down)
    && (s.process == Boot || s.process == BootLeased || s.process == Starting ==> s.postgres == Down)
    && (s.process == Boot || s.process == BootLeased ==> s.hold == NoHold)
    && (s.process == BootLeased ==> s.acquired)
    && (s.process == Starting && !s.standbySignal ==> s.acquired && s.hold != NoHold)
    && (s.process == UndoingLease(true) ==> s.postgres == Down)
    && (s.postgres == Standby ==> s.standbySignal) && (s.postgres == Primary ==> !s.standbySignal)
  }

  lemma HandlerKeepsInv(s: State, h: HandlerStep)
    requires Inv(s) && HandlerEnabled(s, h)
    ensures Inv(DoHandler(s, h))
  {
  }

  lemma ProcessKeepsInv(s: State, p: ProcessStep)
    requires Inv(s) && ProcessEnabled(s, p)
    ensures Inv(DoProcess(s, p))
  {
  }

  lemma {:induction false} RunKeepsInv(ss: seq<State>, acts: seq<Action>, i: nat)
    requires IsRun(ss, acts) && i < |ss|
    ensures Inv(ss[i])
  {
    if i > 0 {
      RunKeepsInv(ss, acts, i - 1);
      assert StepAt(ss, acts, i - 1);
      match acts[i-1]
      case OfHandler(h) => HandlerKeepsInv(ss[i-1], h);
      case OfProcess(p) => ProcessKeepsInv(ss[i-1], p);
    }
  }

  // ------------------------------------------------------------ theorems

  /** In every run a running writable primary has its lease acquired and renewing, or
      the agent has gone fatal; the one exception is a startup that was undone. */
  lemma PrimaryIsCovered(ss: seq<State>, acts: seq<Action>, i: nat)
    requires IsRun(ss, acts) && i < |ss| && ss[i].postgres == Primary
    ensures Covered(ss[i]) || ss[i].process == Exiting(true)
  {
    RunKeepsInv(ss, acts, i);
  }

  /** The steps of a startup as a primary after which undoing it does not stop
      PostgreSQL: a launch not reported ready, whose stop is not among what is undone,
      and a stop that fails. */
  predicate Hazard(s: State, a: Action) {
    || (a == OfProcess(LaunchPostgres(LaunchedNotReady)) && !s.standbySignal)
    || (a == OfProcess(UndoStop(false)) && s.postgres == Primary)
  }

  predicate Sheltered(s: State) {
    && (s.process == Undoing(false) || s.process.UndoingLease? || s.process == Exiting(true) ==> s.postgres != Primary)
    && (s.process == Exiting(true) ==> s.handler == Idle)
  }

  lemma StepKeepsShelter(s: State, a: Action)
    requires Inv(s) && Sheltered(s) && Enabled(s, a) && !Hazard(s, a)
    ensures Sheltered(Do(s, a))
  {
    match a
    case OfHandler(h) => HandlerKeepsShelter(s, h);
    case OfProcess(p) => ProcessKeepsShelter(s, p);
  }

  lemma HandlerKeepsShelter(s: State, h: HandlerStep)
    requires Inv(s) && Sheltered(s) && HandlerEnabled(s, h)
    ensures Sheltered(DoHandler(s, h))
  {
  }

  lemma ProcessKeepsShelter(s: State, p: ProcessStep)
    requires Inv(s) && Sheltered(s) && ProcessEnabled(s, p) && !Hazard(s, OfProcess(p))
    ensures Sheltered(DoProcess(s, p))
  {
  }

  lemma {:induction false} RunKeepsShelter(ss: seq<State>, acts: seq<Action>, i: nat)
    requires IsRun(ss, acts) && i < |ss| && forall j | 0 <= j < i :: !Hazard(ss[j], acts[j])
    ensures Sheltered(ss[i])
  {
    if i > 0 {
      RunKeepsInv(ss, acts, i - 1);
      RunKeepsShelter(ss, acts, i - 1);
      assert StepAt(ss, acts, i - 1);
      StepKeepsShelter(ss[i-1], acts[i-1]);
    }
  }

  /** Without such a step every running primary is covered, with no exception. */
  lemma CoveredWithoutHazards(ss: seq<State>, acts: seq<Action>, i: nat)
    requires IsRun(ss, acts) && i < |ss| && forall j | 0 <= j < i :: !Hazard(ss[j], acts[j])
    ensures ss[i].postgres == Primary ==> Covered(ss[i])
  {
    RunKeepsInv(ss, acts, i);
    RunKeepsShelter(ss, acts, i);
  }

  lemma HazardThenUndo(s: State, p: ProcessStep)
    requires Inv(s) && ProcessEnabled(s, p) && Hazard(s, OfProcess(p))
    ensures var s1 := DoProcess(s, p);
      && ProcessEnabled(s1, UndoLease(true))
      && var s2 := DoProcess(s1, UndoLease(true));
         s2.postgres == Primary && !s2.acquired
  {
  }

  /** And with one, wherever it falls: undoing the lease is what comes next, and hands it
      back under the running primary. */
  lemma HazardUncovers(ss: seq<State>, acts: seq<Action>, p: ProcessStep) returns (ss': seq<State>, acts': seq<Action>)
    requires IsRun(ss, acts) && ProcessEnabled(ss[|acts|], p) && Hazard(ss[|acts|], OfProcess(p))
    ensures IsRun(ss', acts') && acts' == acts + [OfProcess(p)] + [OfProcess(UndoLease(true))]
    ensures ss'[|acts'|].postgres == Primary && !ss'[|acts'|].acquired && !Covered(ss'[|acts'|])
  {
    RunKeepsInv(ss, acts, |acts|);
    HazardThenUndo(ss[|acts|], p);
    ss', acts' := StepTo(ss, acts, p);
    ss', acts' := StepTo(ss', acts', UndoLease(true));
  }

  lemma StepTo(ss: seq<State>, acts: seq<Action>, p: ProcessStep) returns (ss': seq<State>, acts': seq<Action>)
    requires IsRun(ss, acts) && ProcessEnabled(ss[|acts|], p)
    ensures acts' == acts + [OfProcess(p)] && IsRun(ss', acts') && ss'[|acts'|] == DoProcess(ss[|acts|], p)
  {
    ss', acts' := ss + [DoProcess(ss[|acts|], p)], acts + [OfProcess(p)];
    forall i: nat | i < |acts'| ensures StepAt(ss', acts', i) {
      if i < |acts| { assert StepAt(ss, acts, i); }
    }
  }

  /** The lease was acquired, and its hold begun, before PostgreSQL became writable. */
  lemma LeasedBeforeWritable(ss: seq<State>, acts: seq<Action>, i: nat)
    requires IsRun(ss, acts) && i < |acts| && ss[i].postgres != Primary && ss[i+1].postgres == Primary
    ensures ss[i].acquired && ss[i].hold != NoHold
  {
    RunKeepsInv(ss, acts, i);
    assert StepAt(ss, acts, i);
  }

  /** In every run the file in the data directory says what PostgreSQL runs as, so a member
      that is killed comes back in the role it had: a standby boots without the lease, and
      a primary only by acquiring it. */
  lemma SignalSaysTheRole(ss: seq<State>, acts: seq<Action>, i: nat)
    requires IsRun(ss, acts) && i < |ss| && ss[i].postgres != Down
    ensures ss[i].postgres == Standby <==> ss[i].standbySignal
    ensures var s' := Do(ss[i], OfProcess(Killed));
      if ss[i].postgres == Standby then ProcessEnabled(s', BootStandby) && !ProcessEnabled(s', BootAcquire(true))
      else ProcessEnabled(s', BootAcquire(true)) && !ProcessEnabled(s', BootStandby)
  {
    RunKeepsInv(ss, acts, i);
  }

  /** The process gives up its lease: it hands it back, or stops renewing it. */
  predicate GivesUp(s: State, s': State) {
    (s.acquired && !s'.acquired) || (s.hold != NoHold && s'.hold == NoHold)
  }

  /** Demote gives the lease up only while PostgreSQL is down, the shutdown only when it
      is not a primary. */
  lemma GivenUpOnlyWhenStopped(ss: seq<State>, acts: seq<Action>, i: nat)
    requires IsRun(ss, acts) && i < |acts| && GivesUp(ss[i], ss[i+1])
    requires acts[i] != OfProcess(Killed) && !(acts[i].OfProcess? && acts[i].p.UndoLease?)
    ensures ss[i].postgres != Primary && ss[i+1].postgres != Primary
    ensures acts[i].OfHandler? ==> ss[i].postgres == Down
    ensures acts[i].OfProcess? ==> ss[i].process == PostgresStopped
  {
    RunKeepsInv(ss, acts, i);
    assert StepAt(ss, acts, i);
  }

  /** A primary's startup, up to PostgreSQL. */
  lemma StartingPrimary() returns (ss: seq<State>, acts: seq<Action>)
    ensures IsRun(ss, acts) && ss[|acts|] == State(Down, false, 0, true, Renewing, false, Idle, Starting)
  {
    ss, acts := [State(Down, false, 0, false, NoHold, false, Idle, Boot)], [];
    ss, acts := StepTo(ss, acts, BootAcquire(true));
    ss, acts := StepTo(ss, acts, BootHold);
  }

  /** A primary that is slow to come up: startup times out waiting for it, and undoing
      the startup hands the lease back while PostgreSQL runs and can become writable. */
  lemma SlowPrimaryLosesItsLease() returns (ss: seq<State>, acts: seq<Action>)
    ensures IsRun(ss, acts) && ss[|acts|].postgres == Primary && !ss[|acts|].acquired && !Covered(ss[|acts|])
  {
    ss, acts := StartingPrimary();
    ss, acts := HazardUncovers(ss, acts, LaunchPostgres(LaunchedNotReady));
  }

  /** A later part of the startup fails, and so does the stop that undoes PostgreSQL, whose
      error is dropped: the lease goes all the same. */
  lemma UnstoppedPrimaryLosesItsLease() returns (ss: seq<State>, acts: seq<Action>)
    ensures IsRun(ss, acts) && ss[|acts|].postgres == Primary && !ss[|acts|].acquired && !Covered(ss[|acts|])
  {
    ss, acts := StartingPrimary();
    ss, acts := StepTo(ss, acts, LaunchPostgres(LaunchedReady));
    ss, acts := StepTo(ss, acts, FailStartup);
    ss, acts := HazardUncovers(ss, acts, UndoStop(false));
  }

  // ------------------------------------------------- what came before

  lemma StepOfRun(ss: seq<State>, acts: seq<Action>, i: nat)
    requires IsRun(ss, acts) && i < |acts|
    ensures Enabled(ss[i], acts[i]) && ss[i+1] == Do(ss[i], acts[i])
  {
    assert StepAt(ss, acts, i);
  }

  /** The API server answered that the lease is ours. */
  predicate TakesLease(a: Action) {
    a == OfHandler(AcquireForPromote(true)) || a == OfProcess(BootAcquire(true))
  }

  lemma AcquiredStep(s: State, a: Action)
    requires Enabled(s, a) && Do(s, a).acquired && !s.acquired
    ensures TakesLease(a)
  {
  }

  /** A process that goes by a lease was given it, and has not handed it back since. */
  lemma {:induction false} AcquiredForReal(ss: seq<State>, acts: seq<Action>, i: nat) returns (j: nat)
    requires IsRun(ss, acts) && i < |ss| && ss[i].acquired
    ensures j < i && TakesLease(acts[j]) && forall k | j < k <= i :: ss[k].acquired
  {
    assert i > 0;
    StepOfRun(ss, acts, i - 1);
    if ss[i-1].acquired {
      j := AcquiredForReal(ss, acts, i - 1);
    } else {
      AcquiredStep(ss[i-1], acts[i-1]);
      j := i - 1;
    }
  }

  /** Makes the agent go fatal. */
  predicate Fatal(a: Action) {
    a == OfProcess(LoseLease) || a == OfProcess(PostgresExits)
  }

  lemma FatalStepOfRun(ss: seq<State>, acts: seq<Action>, i: nat)
    requires IsRun(ss, acts) && i < |acts|
    ensures Fatal(acts[i]) || (ss[i].fatal && acts[i] != OfProcess(Killed)) ==> ss[i+1].fatal
  {
    StepOfRun(ss, acts, i);
  }

  lemma {:induction false} FatalStays(ss: seq<State>, acts: seq<Action>, i: nat, j: nat)
    requires IsRun(ss, acts) && i <= j < |ss| && ss[i].fatal
    requires forall k | i <= k < j :: acts[k] != OfProcess(Killed)
    ensures ss[j].fatal
  {
    if i < j {
      FatalStays(ss, acts, i, j - 1);
      FatalStepOfRun(ss, acts, j - 1);
    }
  }

  /** An agent whose PostgreSQL exited or whose lease was lost is fatal until it is killed. */
  lemma FatalUntilKilled(ss: seq<State>, acts: seq<Action>, i: nat, j: nat)
    requires IsRun(ss, acts) && i < j < |ss| && Fatal(acts[i])
    requires forall k | i < k < j :: acts[k] != OfProcess(Killed)
    ensures ss[j].fatal
  {
    FatalStepOfRun(ss, acts, i);
    FatalStays(ss, acts, i + 1, j);
  }

  lemma LostStepOfRun(ss: seq<State>, acts: seq<Action>, i: nat)
    requires IsRun(ss, acts) && i < |acts| && ss[i+1].hold != NoHold
    ensures acts[i] == OfProcess(LoseLease) || ss[i].hold == Lost ==> ss[i+1].hold == Lost
  {
    RunKeepsInv(ss, acts, i);
    StepOfRun(ss, acts, i);
  }

  lemma {:induction false} LostStays(ss: seq<State>, acts: seq<Action>, i: nat, j: nat)
    requires IsRun(ss, acts) && i <= j < |ss| && ss[i].hold == Lost
    requires forall k | i <= k <= j :: ss[k].hold != NoHold
    ensures ss[j].hold == Lost
  {
    if i < j {
      LostStays(ss, acts, i, j - 1);
      LostStepOfRun(ss, acts, j - 1);
    }
  }

  /** And a lease that was lost is not renewed again before it has been given up. */
  lemma LostUntilGivenUp(ss: seq<State>, acts: seq<Action>, i: nat, j: nat)
    requires IsRun(ss, acts) && i < j < |ss| && acts[i] == OfProcess(LoseLease)
    requires forall k | i < k <= j :: ss[k].hold != NoHold
    ensures ss[j].hold == Lost
  {
    LostStepOfRun(ss, acts, i);
    LostStays(ss, acts, i + 1, j);
  }

  lemma EpochStepOfRun(ss: seq<State>, acts: seq<Action>, i: nat)
    requires IsRun(ss, acts) && i < |acts|
    ensures ss[i].epoch <= ss[i+1].epoch
    ensures acts[i].OfHandler? && acts[i].h.BeginPromote? ==> ss[i].epoch < acts[i].h.epoch
  {
    StepOfRun(ss, acts, i);
  }

  /** The epoch only grows, over restarts too, and a promotion is always under one later
      than any before it. */
  lemma {:induction false} EpochOnlyGrows(ss: seq<State>, acts: seq<Action>, i: nat, j: nat)
    requires IsRun(ss, acts) && i <= j < |ss|
    ensures ss[i].epoch <= ss[j].epoch
    ensures j < |acts| && acts[j].OfHandler? && acts[j].h.BeginPromote? ==> ss[i].epoch < acts[j].h.epoch
  {
    if j < |acts| {
      EpochStepOfRun(ss, acts, j);
    }
    if i < j {
      EpochOnlyGrows(ss, acts, i, j - 1);
      EpochStepOfRun(ss, acts, j - 1);
    }
  }

  /** Wherever the process is killed, the next one can come to serve: as a standby if the
      data directory says so, and otherwise as a primary under a lease it renews. */
  lemma CanServeAgain(ss: seq<State>, acts: seq<Action>) returns (ss': seq<State>, acts': seq<Action>)
    requires IsRun(ss, acts)
    ensures IsRun(ss', acts') && acts <= acts' && ss'[|acts'|].process == Serving && ss'[|acts'|].epoch == ss[|acts|].epoch
    ensures ss'[|acts'|].postgres == if ss[|acts|].standbySignal then Standby else Primary
    ensures ss'[|acts'|].postgres == Primary ==> ss'[|acts'|].acquired && ss'[|acts'|].hold == Renewing
  {
    ss', acts' := StepTo(ss, acts, Killed);
    if ss[|acts|].standbySignal {
      ss', acts' := StepTo(ss', acts', BootStandby);
    } else {
      ss', acts' := StepTo(ss', acts', BootAcquire(true));
      ss', acts' := StepTo(ss', acts', BootHold);
    }
    ss', acts' := StepTo(ss', acts', LaunchPostgres(LaunchedReady));
    ss', acts' := StepTo(ss', acts', Serve);
  }

  /** A serving agent between two handlers can always shut down in order: PostgreSQL is
      stopped and the lease handed back. */
  lemma CanShutDown(ss: seq<State>, acts: seq<Action>) returns (ss': seq<State>, acts': seq<Action>)
    requires IsRun(ss, acts) && ss[|acts|].process == Serving && ss[|acts|].handler == Idle
    ensures IsRun(ss', acts') && acts <= acts' && ss'[|acts'|].process == Exiting(false)
    ensures ss'[|acts'|].postgres == Down && !ss'[|acts'|].acquired && ss'[|acts'|].hold == NoHold
  {
    ss', acts' := StepTo(ss, acts, BeginShutdown);
    ss', acts' := StepTo(ss', acts', StopPostgres(true));
    ss', acts' := StepTo(ss', acts', ReleaseAtShutdown(true));
  }

  // ---------------------------------------------------------- the handlers

  /** The steps lead from s to s', each of them enabled. */
  predicate Leads(s: State, steps: seq<HandlerStep>, s': State)
    decreases |steps|
  {
    if steps == [] then s == s'
    else HandlerEnabled(s, steps[0]) && Leads(DoHandler(s, steps[0]), steps[1..], s')
  }

  lemma {:induction false} LeadsOn(s: State, steps: seq<HandlerStep>, s': State, h: HandlerStep)
    requires Leads(s, steps, s') && HandlerEnabled(s', h)
    ensures Leads(s, steps + [h], DoHandler(s', h))
    decreases |steps|
  {
    if steps == [] {
      assert (steps + [h])[1..] == [];
    } else {
      assert (steps + [h])[1..] == steps[1..] + [h];
      LeadsOn(DoHandler(s, steps[0]), steps[1..], s', h);
    }
  }

  /** One try of the promotion: PostgreSQL may have become writable although a later
      part of the setup failed. */
  datatype PromoteTry = PromoteTry(promotes: bool, succeeds: bool, cancelled: bool)

  const PROMOTE_RETRIES := 3

  datatype Reply = Stale | WrongHolder | LeaseRefused | SetupFailed | StopFailed | RejoinFailed | Ok

  /** The server of a serving agent, between two handlers or inside one. */
  class Server {
    var postgres: Postgres
    var standbySignal: bool
    var epoch: nat
    var acquired: bool
    var hold: Hold
    var fatal: bool
    var handler: Handler

    ghost function View(): State
      reads this
    {
      State(postgres, standbySignal, epoch, acquired, hold, fatal, handler, Serving)
    }

    /** A handler's next step. */
    method Take(h: HandlerStep)
      requires HandlerEnabled(View(), h)
      modifies this
      ensures View() == DoHandler(old(View()), h)
    {
      match h {
        case BeginPromote(e) => epoch, handler := e, PromoteFenced;
        case RefuseHolder => handler := Idle;
        case AcquireForPromote(ok) =>
          handler := if hold == NoHold && !ok then Idle else PromoteLeased;
          acquired := acquired || (hold == NoHold && ok);
        case StartHoldForPromote =>
          hold, handler := if hold == NoHold then Renewing else hold, PromoteHeld;
        case RunPromotion(promoted) =>
          if promoted {
            postgres, standbySignal := Primary, false;
          }
        case EndPromote => handler := Idle;
        case BeginDemote(e) => epoch, handler := e, DemoteFenced;
        case StopForDemote(ok) =>
          postgres, handler := if ok then Down else postgres, if ok then DemoteStopped else Idle;
        case ReleaseForDemote(released) =>
          hold, acquired, handler := NoHold, acquired && !released, DemoteReleased;
        case FollowForDemote(r) =>
          standbySignal := if r.NotConfigured? then r.standbySignal else true;
          postgres, handler := if r == StartedAsStandby then Standby else postgres, Idle;
      }
    }

    /** At most three tries, until one succeeds; a promotion that happened is kept. */
    method PromoteWithRetry(tries: nat -> PromoteTry) returns (ok: bool, attempts: nat, ghost steps: seq<HandlerStep>)
      requires handler == PromoteHeld && forall i :: tries(i).succeeds ==> tries(i).promotes
      modifies this
      ensures Leads(old(View()), steps, View()) && handler == PromoteHeld
      ensures acquired == old(acquired) && hold == old(hold) && epoch == old(epoch)
      ensures attempts <= PROMOTE_RETRIES
      ensures old(postgres) != Down ==> forall i: nat | i + 1 < attempts :: !tries(i).succeeds
      ensures ok <==> attempts > 0 && tries(attempts - 1).succeeds && old(postgres) != Down
      ensures !ok ==> attempts == PROMOTE_RETRIES || tries(attempts).cancelled
      ensures postgres == (if old(postgres) == Standby && exists i: nat | i < attempts :: tries(i).promotes then Primary else old(postgres))
    {
      ok, attempts, steps := false, 0, [];
      while attempts < PROMOTE_RETRIES
        invariant attempts <= PROMOTE_RETRIES && handler == PromoteHeld && Leads(old(View()), steps, View())
        invariant acquired == old(acquired) && hold == old(hold) && epoch == old(epoch)
        invariant forall i: nat | i < attempts :: !tries(i).succeeds || old(postgres) == Down
        invariant postgres == (if old(postgres) == Standby && exists i: nat | i < attempts :: tries(i).promotes then Primary else old(postgres))
      {
        var t := tries(attempts);
        if attempts > 0 && t.cancelled {
          return;
        }
        attempts := attempts + 1;
        var h := RunPromotion(postgres == Standby && t.promotes);
        LeadsOn(old(View()), steps, View(), h);
        Take(h);
        steps := steps + [h];
        if postgres != Down && t.succeeds {
          ok := true;
          return;
        }
      }
    }

    /** The handler is the step model's, step by step.  PostgreSQL becomes writable only
        after the epoch was accepted, the lease acquired and its hold begun; a failed setup
        keeps both, and a lease meant for another name changes nothing but the epoch. */
    method Promote(e: nat, meantForUs: bool, leaseOk: bool, tries: nat -> PromoteTry) returns (r: Reply, ghost steps: seq<HandlerStep>)
      requires handler == Idle && forall i :: tries(i).succeeds ==> tries(i).promotes
      modifies this
      ensures Leads(old(View()), steps, View()) && handler == Idle
      ensures r == Stale <==> e <= old(epoch)
      ensures r == Stale ==> View() == old(View())
      ensures r != Stale ==> epoch == e
      ensures r == WrongHolder <==> e > old(epoch) && !meantForUs
      ensures r == LeaseRefused <==> e > old(epoch) && meantForUs && old(hold) == NoHold && !leaseOk
      ensures r == WrongHolder || r == LeaseRefused ==> View() == old(View()).(epoch := e)
      ensures r == SetupFailed || r == Ok ==> hold != NoHold && (old(hold) == NoHold ==> acquired)
      ensures r == Ok ==> postgres != Down && (old(postgres) == Standby ==> postgres == Primary)
      ensures postgres == old(postgres) || (old(postgres) == Standby && postgres == Primary)
    {
      ghost var from := View();
      var refused;
      refused, steps := BeginTerm(e, meantForUs, leaseOk);
      if refused != Ok {
        return refused, steps;
      }
      ghost var held := View();
      var ok, attempts, more := PromoteWithRetry(tries);
      LeadsThrough(from, steps, held, more, View());
      steps := Next(from, steps + more, EndPromote);
      return if ok then Ok else SetupFailed, steps;
    }

    /** Up to the hold: what is refused leaves the epoch behind and nothing else. */
    method BeginTerm(e: nat, meantForUs: bool, leaseOk: bool) returns (r: Reply, ghost steps: seq<HandlerStep>)
      requires handler == Idle
      modifies this
      ensures Leads(old(View()), steps, View())
      ensures r == (if e <= old(epoch) then Stale else if !meantForUs then WrongHolder
                    else if old(hold) == NoHold && !leaseOk then LeaseRefused else Ok)
      ensures r == Stale ==> View() == old(View())
      ensures r == WrongHolder || r == LeaseRefused ==> View() == old(View()).(epoch := e)
      ensures r == Ok ==> handler == PromoteHeld && epoch == e && postgres == old(postgres)
      ensures r == Ok ==> hold == (if old(hold) == NoHold then Renewing else old(hold)) && (old(hold) == NoHold ==> acquired)
    {
      ghost var from := View();
      steps := [];
      if e <= epoch {
        return Stale, steps;
      }
      steps := Next(from, steps, BeginPromote(e));
      if !meantForUs {
        steps := Next(from, steps, RefuseHolder);
        return WrongHolder, steps;
      }
      steps := Next(from, steps, AcquireForPromote(leaseOk));
      if handler == Idle {
        return LeaseRefused, steps;
      }
      steps := Next(from, steps, StartHoldForPromote);
      return Ok, steps;
    }

    /** A step, appended to those taken since `from`. */
    method Next(ghost from: State, ghost steps: seq<HandlerStep>, h: HandlerStep) returns (ghost steps': seq<HandlerStep>)
      requires Leads(from, steps, View()) && HandlerEnabled(View(), h)
      modifies this
      ensures steps' == steps + [h] && Leads(from, steps', View())
      ensures View() == DoHandler(old(View()), h)
    {
      LeadsOn(from, steps, View(), h);
      Take(h);
      steps' := steps + [h];
    }

    /** Again step by step: the lease is kept for as long as PostgreSQL cannot be stopped,
        and handed back once it is, whatever comes of the rejoin. */
    method Demote(e: nat, stopOk: bool, released: bool, rejoin: Rejoin) returns (r: Reply, ghost steps: seq<HandlerStep>)
      requires handler == Idle
      modifies this
      ensures Leads(old(View()), steps, View()) && handler == Idle
      ensures r == Stale <==> !DemoteAdmitted(old(View()), e)
      ensures r == Stale ==> View() == old(View())
      ensures r == StopFailed <==> DemoteAdmitted(old(View()), e) && !stopOk
      ensures r == StopFailed ==> View() == old(View()).(epoch := e)
      ensures r == RejoinFailed || r == Ok ==> epoch == e && hold == NoHold && (released ==> !acquired) && postgres != Primary
      ensures r == Ok <==> DemoteAdmitted(old(View()), e) && stopOk && rejoin == StartedAsStandby
      ensures r == Ok ==> postgres == Standby && standbySignal
      ensures r == RejoinFailed ==> postgres == Down && (rejoin == ConfiguredOnly ==> standbySignal)
    {
      steps := [];
      if !(e != 0 && e == epoch && postgres == Down) && e <= epoch {
        return Stale, steps;
      }
      steps := Next(old(View()), steps, BeginDemote(e));
      steps := Next(old(View()), steps, StopForDemote(stopOk));
      if !stopOk {
        return StopFailed, steps;
      }
      steps := Next(old(View()), steps, ReleaseForDemote(released));
      steps := Next(old(View()), steps, FollowForDemote(rejoin));
      return if rejoin == StartedAsStandby then Ok else RejoinFailed, steps;
    }
  }

  lemma {:induction false} LeadsThrough(s: State, steps: seq<HandlerStep>, m: State, more: seq<HandlerStep>, s': State)
    requires Leads(s, steps, m) && Leads(m, more, s')
    ensures Leads(s, steps + more, s')
    decreases |steps|
  {
    if steps == [] {
      assert steps + more == more;
    } else {
      assert (steps + more)[1..] == steps[1..] + more;
      LeadsThrough(DoHandler(s, steps[0]), steps[1..], m, more, s');
    }
  }
}
