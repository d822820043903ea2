/**
 Barrier runs and recoveries sharing one write fence, one advisory lock and the
 shards' write pauses.

 A run lists the groups, raises the fence under a token of its own, pauses the
 shards one by one, does its work, resumes every shard it listed and only then
 releases the fence; a recovery resumes what an interrupted run left and clears
 its fence.  Either may crash between any two steps, and a reply may be lost
 after its statement took effect.  Workflows claim, retire and release shards
 meanwhile.
 */
module BarrierFence {
  import opened Common
  import opened WriteFence

  type Shard = string
  type ActorId = nat

  /** Where a run or a recovery is.  A run goes through all but Checked, Probing
      and Clearing, a recovery through all but Raised and Releasing. */
  datatype Stage = Checked | Locked | Listed | Raised | Probing | Resuming(ok: bool) | Releasing | Clearing | Finished

  /** `groups` is the list of active shards the actor read; `left` the ones it has
      still to probe or resume in the pass it is making. */
  datatype Actor = Actor(token: Token, stage: Stage, groups: set<Shard>, left: set<Shard>)

  /** `stranded` is history: the shards whose pause a barrier put there and nobody
      has lifted or taken over.  A workflow that claims a shard, or a cutover that
      retires it, takes its pause over.  `exclusive` says that no session has lost
      the lock while its actor went on, and that no restore cleared the fence.
      `tokens` records every token ever drawn, and the run that drew it. */
  datatype State = State(fence: Fence, now: Time, postmaster: Time, lock: Option<ActorId>,
                         actors: map<ActorId, Actor>, tokens: map<Token, ActorId>,
                         listed: set<Shard>, retired: set<Shard>, claimed: set<Shard>,
                         paused: set<Shard>, stranded: set<Shard>, exclusive: bool)

  /** How a statement ended: a lost reply is an error although it took effect. */
  datatype Outcome = Done | ReplyLost | NotDone

  datatype Action =
    // a run
    | StartRun(r: ActorId, token: Token)
    | List(r: ActorId)
    | RaiseFence(r: ActorId, reason: string, replied: bool)
    | PauseShard(r: ActorId, g: Shard, replied: bool)
    | BeginResume(r: ActorId)
    | ReleaseFence(r: ActorId)
    // a recovery
    | StartRecovery(r: ActorId, maxRun: nat)
    | LockRecovery(r: ActorId)
    | Probe(r: ActorId, g: Shard)
    | ClearFence(r: ActorId)
    // both
    | Resume(r: ActorId, g: Shard, live: bool, how: Outcome)
    | FinishPass(r: ActorId)
    | End(r: ActorId)
    // everybody else
    | LoseLock
    | SetFence(active: bool, reason: string)
    | ClearAfterRestore
    | Claim(g: Shard)
    | Unclaim(g: Shard, resume: bool)
    | Retire(g: Shard)
    | Reinstate(g: Shard)
    | AddShard(g: Shard)
    | DropShard(g: Shard)
    | LosePause(g: Shard)
    | Tick
    | RestartCatalog

  predicate At(s: State, r: ActorId, stage: Stage) {
    r in s.actors && s.actors[r].stage == stage
  }

  predicate IsResuming(s: State, r: ActorId) {
    r in s.actors && s.actors[r].stage.Resuming?
  }

  predicate Enabled(s: State, a: Action) {
    match a
    case StartRun(r, token) => r !in s.actors && s.lock.None? && token != "" && token !in s.tokens
    case List(r) => At(s, r, Locked)
    case RaiseFence(r, reason, replied) => At(s, r, Listed) && s.actors[r].token != ""
    case PauseShard(r, g, replied) => At(s, r, Raised) && g in s.actors[r].groups
    case BeginResume(r) => At(s, r, Raised)
    case ReleaseFence(r) => At(s, r, Releasing) && s.actors[r].token != ""
    case StartRecovery(r, maxRun) =>
      r !in s.actors && s.fence.active && s.fence.fencedAt.Some? && s.now >= s.fence.fencedAt.value + maxRun
    case LockRecovery(r) => At(s, r, Checked) && s.lock.None?
    case Probe(r, g) => At(s, r, Probing) && g in s.actors[r].left
    case ClearFence(r) => At(s, r, Clearing)
    case Resume(r, g, live, how) => IsResuming(s, r) && g in s.actors[r].left
    case FinishPass(r) => (At(s, r, Probing) || IsResuming(s, r)) && s.actors[r].left == {}
    case End(r) => r in s.actors
    case LoseLock => s.lock.Some?
    case _ => true
  }

  function SetStage(s: State, r: ActorId, stage: Stage): State
    requires r in s.actors
  {
    s.(actors := s.actors[r := s.actors[r].(stage := stage)])
  }

  function BeginPass(s: State, r: ActorId, stage: Stage): State
    requires r in s.actors
  {
    s.(actors := s.actors[r := s.actors[r].(stage := stage, left := s.actors[r].groups)])
  }

  function Passed(s: State, r: ActorId, g: Shard, stage: Stage): State
    requires r in s.actors
  {
    s.(actors := s.actors[r := s.actors[r].(stage := stage, left := s.actors[r].left - {g})])
  }

  /** PauseWrites(g, false): a claimed shard is the workflow's to resume, and a
      retired one keeps its pause unless a workflow or a subscription still uses it. */
  function Resumed(s: State, g: Shard, live: bool): State {
    if g in s.claimed || (g in s.retired && !live) then s
    else s.(paused := s.paused - {g}, stranded := s.stranded - {g})
  }

  /** A step of a run up to its last pass over the shards. */
  predicate ByRun(a: Action) {
    a.StartRun? || a.List? || a.RaiseFence? || a.PauseShard? || a.BeginResume? || a.ReleaseFence?
  }

  /** A step of a recovery, or one that both make. */
  predicate ByRecovery(a: Action) {
    a.StartRecovery? || a.LockRecovery? || a.Probe? || a.ClearFence? || a.Resume? || a.FinishPass? || a.End?
  }

  function DoRun(s: State, a: Action): State
    requires ByRun(a) && Enabled(s, a)
  {
    match a
    case StartRun(r, token) =>
      s.(lock := Some(r), tokens := s.tokens[token := r], actors := s.actors[r := Actor(token, Locked, {}, {})])
    case List(r) =>
      // A run goes on to raise the fence, a recovery to probe the shards.
      var x := s.actors[r].(groups := s.listed - s.retired);
      s.(actors := s.actors[r := if x.token != "" then x.(stage := Listed) else x.(stage := Probing, left := x.groups)])
    case RaiseFence(r, reason, replied) =>
      SetStage(s.(fence := Raise(s.fence, reason, s.actors[r].token, s.now)), r, if replied then Raised else Finished)
    case PauseShard(r, g, replied) =>
      var s' := s.(paused := s.paused + {g},
                   stranded := if g in s.listed && g !in s.claimed && g !in s.retired then s.stranded + {g} else s.stranded);
      if replied then s' else BeginPass(s', r, Resuming(true))
    case BeginResume(r) => BeginPass(s, r, Resuming(true))
    case ReleaseFence(r) => SetStage(s.(fence := Release(s.fence, s.actors[r].token)), r, Finished)
  }

  function DoRecovery(s: State, a: Action): State
    requires ByRecovery(a) && Enabled(s, a)
  {
    match a
    case StartRecovery(r, maxRun) => s.(actors := s.actors[r := Actor("", Checked, {}, {})])
    case LockRecovery(r) => SetStage(s.(lock := Some(r)), r, Locked)
    case Probe(r, g) => if g in s.paused then BeginPass(s, r, Resuming(true)) else Passed(s, r, g, Probing)
    case ClearFence(r) => SetStage(s.(fence := ClearStale(s.fence, s.postmaster)), r, Finished)
    case Resume(r, g, live, how) =>
      var s' := if how.NotDone? then s else Resumed(s, g, live);
      Passed(s', r, g, Resuming(s.actors[r].stage.ok && how.Done?))
    case FinishPass(r) =>
      // A resume that failed on any shard keeps the fence for the next recovery.
      var x := s.actors[r];
      SetStage(s, r, if x.stage.Resuming? && !x.stage.ok then Finished
                     else if x.token != "" then Releasing else Clearing)
    case End(r) => s.(actors := s.actors - {r}, lock := if s.lock == Some(r) then None else s.lock)
  }

  function DoWorld(s: State, a: Action): State
    requires !ByRun(a) && !ByRecovery(a)
  {
    match a
    case LoseLock => s.(lock := None, exclusive := false)
    case SetFence(active, reason) => s.(fence := SetUnowned(s.fence, active, reason, s.now))
    case ClearAfterRestore => s.(fence := LOWERED, exclusive := false)
    case Claim(g) => s.(claimed := s.claimed + {g}, stranded := s.stranded - {g})
    case Unclaim(g, resume) => s.(claimed := s.claimed - {g}, paused := if resume then s.paused - {g} else s.paused,
                                  stranded := if resume then s.stranded - {g} else s.stranded)
    case Retire(g) => s.(retired := s.retired + {g}, stranded := s.stranded - {g})
    case Reinstate(g) => s.(retired := s.retired - {g})
    case AddShard(g) => s.(listed := s.listed + {g})
    case DropShard(g) => s.(listed := s.listed - {g}, stranded := s.stranded - {g})
    case LosePause(g) => s.(paused := s.paused - {g}, stranded := s.stranded - {g})
    case Tick => s.(now := s.now + 1)
    case RestartCatalog => s.(postmaster := s.now, lock := None, exclusive := s.exclusive && s.lock.None?)
  }

  function Do(s: State, a: Action): State
    requires Enabled(s, a)
  {
    if ByRun(a) then DoRun(s, a) else if ByRecovery(a) then DoRecovery(s, a) else DoWorld(s, a)
  }

  predicate StepAt(ss: seq<State>, acts: seq<Action>, i: nat)
    requires |ss| == |acts| + 1 && i < |acts|
  {
    Enabled(ss[i], acts[i]) && ss[i+1] == Do(ss[i], acts[i])
  }

  /** The states ss and the actions between them, from a cluster at rest. */
  ghost predicate IsRun(ss: seq<State>, acts: seq<Action>) {
    && |ss| == |acts| + 1 && Init(ss[0])
    && forall i: nat | i < |acts| :: StepAt(ss, acts, i)
  }

  /** No barrier is running and none left a pause; the fence may be up, with the
      token of a barrier long over if the catalog was restored. */
  predicate Init(s: State) {
    && Sound(s.fence) && s.postmaster <= s.now
    && (s.fence.owner != "" ==> s.fence.owner in s.tokens && s.fence.fencedAt.value <= s.now)
    && s.lock.None? && s.actors == map[] && s.stranded == {} && s.exclusive
  }

  // ------------------------------------------------------- the fence row

  /** The token's run has not raised the fence yet. */
  predicate YetToRaise(x: Actor) {
    x.stage == Locked || x.stage == Listed
  }

  predicate TokenOk(s: State, r: ActorId)
    requires r in s.actors
  {
    var x := s.actors[r];
    && (x.stage == Checked ==> x.token == "")
    && (x.token != "" ==> x.token in s.tokens && s.tokens[x.token] == r)
    && (x.token != "" && YetToRaise(x) ==> s.fence.owner != x.token)
  }

  predicate TokenInv(s: State) {
    && Sound(s.fence) && s.postmaster <= s.now
    && (s.fence.owner != "" ==> s.fence.owner in s.tokens && s.fence.fencedAt.value <= s.now)
    && forall r | r in s.actors :: TokenOk(s, r)
  }

  /** What a step may do to an actor and to the fence's owner: the actor keeps its
      token and comes to a stage before the raise only at its start; the owner stays,
      goes, or is the run that raises the fence, which is past that stage then. */
  predicate Moves(s: State, s': State, a: Action, r: ActorId)
    requires r in s'.actors
  {
    var x', owner := s'.actors[r], s'.fence.owner;
    && (if r in s.actors then
          && x'.token == s.actors[r].token
          && (x'.stage == Checked ==> s.actors[r].stage == Checked)
          && (YetToRaise(x') ==> YetToRaise(s.actors[r]) || s.actors[r].stage == Checked)
        else if a.StartRun? then r == a.r && x'.token == a.token && x'.stage == Locked
        else x'.token == "" && x'.stage == Checked)
    && s'.tokens == (if a.StartRun? then s.tokens[a.token := a.r] else s.tokens)
    && (|| owner == s.fence.owner || owner == ""
        || (a.RaiseFence? && a.r in s.actors && owner == s.actors[a.r].token && a.r in s'.actors && !YetToRaise(s'.actors[a.r])))
  }

  lemma RunMoves(s: State, a: Action, r: ActorId)
    requires ByRun(a) && Enabled(s, a) && r in DoRun(s, a).actors
    ensures Moves(s, DoRun(s, a), a, r)
  {
  }

  lemma RecoveryMoves(s: State, a: Action, r: ActorId)
    requires ByRecovery(a) && Enabled(s, a) && r in DoRecovery(s, a).actors
    ensures Moves(s, DoRecovery(s, a), a, r)
  {
  }

  lemma WorldMoves(s: State, a: Action, r: ActorId)
    requires !ByRun(a) && !ByRecovery(a) && Enabled(s, a) && r in DoWorld(s, a).actors
    ensures Moves(s, DoWorld(s, a), a, r)
  {
  }

  lemma ActorMoves(s: State, a: Action, r: ActorId)
    requires Enabled(s, a) && r in Do(s, a).actors
    ensures Moves(s, Do(s, a), a, r)
  {
    if ByRun(a) {
      RunMoves(s, a, r);
    } else if ByRecovery(a) {
      RecoveryMoves(s, a, r);
    } else {
      WorldMoves(s, a, r);
    }
  }

  lemma KeepsTokenOk(s: State, s': State, a: Action, r: ActorId)
    requires TokenInv(s) && r in s'.actors && Moves(s, s', a, r)
    requires a.StartRun? ==> a.token != "" && a.token !in s.tokens && a.r !in s.actors
    ensures TokenOk(s', r)
  {
    if r in s.actors {
      assert TokenOk(s, r);
    }
    if a.RaiseFence? && a.r in s.actors {
      assert TokenOk(s, a.r);
    }
  }

  lemma ActorTokenStep(s: State, a: Action, r: ActorId)
    requires TokenInv(s) && Enabled(s, a) && r in Do(s, a).actors
    ensures TokenOk(Do(s, a), r)
  {
    ActorMoves(s, a, r);
    KeepsTokenOk(s, Do(s, a), a, r);
  }

  lemma TokenStep(s: State, a: Action)
    requires TokenInv(s) && Enabled(s, a)
    ensures TokenInv(Do(s, a))
  {
    forall r | r in Do(s, a).actors ensures TokenOk(Do(s, a), r) { ActorTokenStep(s, a, r); }
    if a.RaiseFence? { assert TokenOk(s, a.r); }
  }

  /** The token has been handed out and no run that could still raise it is left. */
  ghost predicate Spent(s: State, token: Token) {
    token != "" && token in s.tokens && forall r | r in s.actors && YetToRaise(s.actors[r]) :: s.actors[r].token != token
  }

  lemma SpentStays(s: State, a: Action, token: Token)
    requires TokenInv(s) && Spent(s, token) && Enabled(s, a)
    ensures Spent(Do(s, a), token)
  {
    forall r | r in Do(s, a).actors && YetToRaise(Do(s, a).actors[r]) ensures Do(s, a).actors[r].token != token {
      ActorMoves(s, a, r);
      if r in s.actors {
        assert TokenOk(s, r);
      }
    }
  }

  /** Nobody raises a spent token's fence again, and while it stands it is not changed. */
  lemma SpentStep(s: State, a: Action, token: Token)
    requires TokenInv(s) && Spent(s, token) && Enabled(s, a)
    ensures Spent(Do(s, a), token)
    ensures s.fence.owner != token ==> Do(s, a).fence.owner != token
    ensures Do(s, a).fence.owner == token ==> Do(s, a).fence == s.fence
  {
    SpentStays(s, a, token);
    if a.RaiseFence? {
      assert YetToRaise(s.actors[a.r]);
    } else if s.fence.owner == token && !MayTouch(s, a) {
      OwnedFenceIsItsOwners(s, a);
    }
  }

  lemma {:induction false} RunKeepsTokens(ss: seq<State>, acts: seq<Action>, i: nat)
    requires IsRun(ss, acts) && i < |ss|
    ensures TokenInv(ss[i])
  {
    if i > 0 {
      RunKeepsTokens(ss, acts, i - 1);
      assert StepAt(ss, acts, i - 1);
      TokenStep(ss[i-1], acts[i-1]);
    }
  }

  /** The only actions that change an owned fence: a run raising its own over it, its
      owner releasing it, a recovery that finds it stale, and a restore. */
  predicate MayTouch(s: State, a: Action) {
    match a
    case RaiseFence(_, _, _) => true
    case ReleaseFence(r) => r in s.actors && s.actors[r].token == s.fence.owner
    case ClearFence(_) => Stale(s.fence, s.postmaster)
    case ClearAfterRestore => true
    case _ => false
  }

  lemma RunLeavesFence(s: State, a: Action)
    requires Sound(s.fence) && ByRun(a) && Enabled(s, a) && s.fence.owner != "" && !MayTouch(s, a)
    ensures DoRun(s, a).fence == s.fence
  {
  }

  lemma RecoveryLeavesFence(s: State, a: Action)
    requires Sound(s.fence) && ByRecovery(a) && Enabled(s, a) && s.fence.owner != "" && !MayTouch(s, a)
    ensures DoRecovery(s, a).fence == s.fence
  {
  }

  lemma WorldLeavesFence(s: State, a: Action)
    requires Sound(s.fence) && !ByRun(a) && !ByRecovery(a) && s.fence.owner != "" && !MayTouch(s, a)
    ensures DoWorld(s, a).fence == s.fence
  {
  }

  lemma OwnedFenceIsItsOwners(s: State, a: Action)
    requires TokenInv(s) && Enabled(s, a) && s.fence.owner != "" && !MayTouch(s, a)
    ensures Do(s, a).fence == s.fence
  {
    if ByRun(a) {
      RunLeavesFence(s, a);
    } else if ByRecovery(a) {
      RecoveryLeavesFence(s, a);
    } else {
      WorldLeavesFence(s, a);
    }
  }

  lemma SpentStepOfRun(ss: seq<State>, acts: seq<Action>, i: nat, token: Token)
    requires IsRun(ss, acts) && i < |acts| && Spent(ss[i], token)
    ensures Spent(ss[i+1], token)
    ensures ss[i+1].fence.owner == token ==> ss[i+1].fence == ss[i].fence
  {
    RunKeepsTokens(ss, acts, i);
    assert StepAt(ss, acts, i);
    SpentStep(ss[i], acts[i], token);
  }

  lemma {:induction false} OwnedAt(ss: seq<State>, acts: seq<Action>, i: nat, k: nat, j: nat, token: Token)
    requires IsRun(ss, acts) && i <= k <= j < |ss| && token != ""
    requires ss[i].fence.owner == token && ss[j].fence.owner == token
    ensures ss[k].fence == ss[j].fence
    decreases j
  {
    if k < j {
      SpentSince(ss, acts, i, j - 1, token);
      SpentStepOfRun(ss, acts, j - 1, token);
      OwnedAt(ss, acts, i, k, j - 1, token);
    }
  }

  /** A run that still finds its own token in the fence has owned it without a gap:
      the fence was the same row at every moment since it was raised. */
  lemma OwnedWithoutAGap(ss: seq<State>, acts: seq<Action>, i: nat, j: nat, token: Token)
    requires IsRun(ss, acts) && i <= j < |ss| && token != ""
    requires ss[i].fence.owner == token && ss[j].fence.owner == token
    ensures forall k | i <= k <= j :: ss[k].fence == ss[i].fence
  {
    OwnedAt(ss, acts, i, i, j, token);
    forall k | i <= k <= j ensures ss[k].fence == ss[j].fence {
      OwnedAt(ss, acts, i, k, j, token);
    }
  }

  lemma OwnerIsSpent(s: State)
    requires TokenInv(s) && s.fence.owner != ""
    ensures Spent(s, s.fence.owner)
  {
    forall r | r in s.actors && YetToRaise(s.actors[r]) ensures s.actors[r].token != s.fence.owner {
      assert TokenOk(s, r);
    }
  }

  lemma {:induction false} SpentSince(ss: seq<State>, acts: seq<Action>, i: nat, j: nat, token: Token)
    requires IsRun(ss, acts) && i <= j < |ss| && token != "" && ss[i].fence.owner == token
    ensures Spent(ss[j], token)
  {
    if i == j {
      RunKeepsTokens(ss, acts, i);
      OwnerIsSpent(ss[i]);
    } else {
      SpentSince(ss, acts, i, j - 1, token);
      SpentStepOfRun(ss, acts, j - 1, token);
    }
  }

  /** A fence that came out of a backup is older than this postmaster. */
  predicate Restored(s: State) {
    s.fence.owner != "" && s.fence.fencedAt.Some? && s.fence.fencedAt.value <= s.postmaster
  }

  /** A new run, the run that owns the fence, or a completed restore. */
  predicate Supersedes(s: State, a: Action) {
    a.RaiseFence? || a.ClearAfterRestore? || (a.ReleaseFence? && a.r in s.actors && s.actors[a.r].token == s.fence.owner)
  }

  lemma RestoredStep(s: State, a: Action)
    requires TokenInv(s) && Enabled(s, a) && Restored(s) && !Supersedes(s, a)
    ensures Do(s, a).fence == s.fence && Restored(Do(s, a))
  {
    OwnedFenceIsItsOwners(s, a);
  }

  lemma RestoredStepOfRun(ss: seq<State>, acts: seq<Action>, i: nat)
    requires IsRun(ss, acts) && i < |acts| && Restored(ss[i]) && !Supersedes(ss[i], acts[i])
    ensures ss[i+1].fence == ss[i].fence && Restored(ss[i+1])
  {
    RunKeepsTokens(ss, acts, i);
    assert StepAt(ss, acts, i);
    RestoredStep(ss[i], acts[i]);
  }

  /** The fence a restored cluster comes back holding is never lifted by a recovery:
      it survives any number of recoveries, catalog restarts and refused writes. */
  lemma {:induction false} RestoredFenceSurvives(ss: seq<State>, acts: seq<Action>, i: nat, j: nat)
    requires IsRun(ss, acts) && i <= j < |ss| && Restored(ss[i])
    requires forall k | i <= k < j :: !Supersedes(ss[k], acts[k])
    ensures ss[j].fence == ss[i].fence && Restored(ss[j])
  {
    if i < j {
      RestoredFenceSurvives(ss, acts, i, j - 1);
      RestoredStepOfRun(ss, acts, j - 1);
    }
  }

  // ------------------------------------------------------- the pauses

  /** What the holder of the lock knows of the stranded pauses at each stage. */
  predicate HolderOk(s: State, x: Actor) {
    match x.stage
    case Listed => s.stranded <= x.groups
    case Raised => s.stranded <= x.groups && x.token != "" && s.fence.owner == x.token
    case Probing => s.stranded <= x.left && x.left <= x.groups
    case Resuming(ok) => s.stranded <= x.groups && (ok ==> s.stranded <= x.left)
    case Releasing => s.stranded == {}
    case Clearing => s.stranded == {}
    case _ => true
  }

  ghost predicate StrandInv(s: State) {
    s.exclusive ==>
      && s.stranded <= s.paused * s.listed && s.stranded !! s.claimed && s.stranded !! s.retired
      && (s.stranded != {} ==> s.fence.owner != "")
      && forall r | r in s.actors && s.actors[r].stage != Checked :: s.lock == Some(r) && HolderOk(s, s.actors[r])
  }

  lemma HolderRunStep(s: State, a: Action, r: ActorId)
    requires TokenInv(s) && StrandInv(s) && ByRun(a) && Enabled(s, a) && s.exclusive
    requires r in DoRun(s, a).actors && DoRun(s, a).actors[r].stage != Checked
    ensures DoRun(s, a).lock == Some(r) && HolderOk(DoRun(s, a), DoRun(s, a).actors[r])
  {
  }

  lemma HolderRecoveryStep(s: State, a: Action, r: ActorId)
    requires TokenInv(s) && StrandInv(s) && ByRecovery(a) && Enabled(s, a) && s.exclusive
    requires r in DoRecovery(s, a).actors && DoRecovery(s, a).actors[r].stage != Checked
    ensures DoRecovery(s, a).lock == Some(r) && HolderOk(DoRecovery(s, a), DoRecovery(s, a).actors[r])
  {
  }

  lemma HolderWorldStep(s: State, a: Action, r: ActorId)
    requires TokenInv(s) && StrandInv(s) && !ByRun(a) && !ByRecovery(a) && Enabled(s, a) && DoWorld(s, a).exclusive
    requires r in s.actors && s.actors[r].stage != Checked
    ensures DoWorld(s, a).lock == Some(r) && HolderOk(DoWorld(s, a), s.actors[r]) && DoWorld(s, a).actors == s.actors
  {
  }

  lemma HolderStep(s: State, a: Action, r: ActorId)
    requires TokenInv(s) && StrandInv(s) && Enabled(s, a) && s.exclusive && Do(s, a).exclusive
    requires r in Do(s, a).actors && Do(s, a).actors[r].stage != Checked
    ensures Do(s, a).lock == Some(r) && HolderOk(Do(s, a), Do(s, a).actors[r])
  {
    if ByRun(a) {
      HolderRunStep(s, a, r);
    } else if ByRecovery(a) {
      HolderRecoveryStep(s, a, r);
    } else {
      HolderWorldStep(s, a, r);
    }
  }

  lemma StrandStep(s: State, a: Action)
    requires TokenInv(s) && StrandInv(s) && Enabled(s, a)
    ensures StrandInv(Do(s, a))
  {
    if Do(s, a).exclusive {
      forall r | r in Do(s, a).actors && Do(s, a).actors[r].stage != Checked
        ensures Do(s, a).lock == Some(r) && HolderOk(Do(s, a), Do(s, a).actors[r])
      {
        HolderStep(s, a, r);
      }
    }
  }

  lemma {:induction false} RunKeepsStrand(ss: seq<State>, acts: seq<Action>, i: nat)
    requires IsRun(ss, acts) && i < |ss|
    ensures TokenInv(ss[i]) && StrandInv(ss[i])
  {
    RunKeepsTokens(ss, acts, i);
    if i > 0 {
      RunKeepsStrand(ss, acts, i - 1);
      assert StepAt(ss, acts, i - 1);
      StrandStep(ss[i-1], acts[i-1]);
    }
  }

  lemma NothingStranded(ss: seq<State>, acts: seq<Action>, i: nat)
    requires IsRun(ss, acts) && i < |acts| && ss[i].exclusive
    requires ss[i].fence.owner != "" && !ss[i+1].fence.active && !acts[i].ClearAfterRestore?
    ensures acts[i].ReleaseFence? || acts[i].ClearFence?
    ensures ss[i].stranded == {} && ss[i+1].stranded == {}
  {
    RunKeepsStrand(ss, acts, i);
    assert StepAt(ss, acts, i);
    if !acts[i].ReleaseFence? && !acts[i].ClearFence? && !acts[i].RaiseFence? {
      OwnedFenceIsItsOwners(ss[i], acts[i]);
    }
  }

  // ------------------------------------------------- the pauses themselves

  /** A resume that takes effect, answered or not, lifts the pause, unless a workflow claims
      the shard or it was retired and nothing live uses it; one that does not changes
      nothing, and only an answered one leaves the pass in order. */
  lemma ResumeLifts(s: State, r: ActorId, g: Shard, live: bool, how: Outcome)
    requires Enabled(s, Resume(r, g, live, how))
    ensures var s' := Do(s, Resume(r, g, live, how));
      && (!how.NotDone? && g !in s.claimed && (g !in s.retired || live) ==> g !in s'.paused)
      && (how.NotDone? || g in s.claimed || (g in s.retired && !live) ==> s'.paused == s.paused)
      && (forall h | h != g :: h in s'.paused <==> h in s.paused)
      && r in s'.actors && s'.actors[r].stage.Resuming? && (s'.actors[r].stage.ok ==> how.Done?)
  {
  }

  /** A run's pause lands, answered or not; a run whose pause was not answered goes to
      resume everything it listed, that shard included. */
  lemma PauseLands(s: State, r: ActorId, g: Shard, replied: bool)
    requires Enabled(s, PauseShard(r, g, replied))
    ensures var s' := Do(s, PauseShard(r, g, replied));
      && s'.paused == s.paused + {g} && r in s'.actors
      && (!replied ==> s'.actors[r].stage == Resuming(true) && s'.actors[r].left == s.actors[r].groups && g in s'.actors[r].left)
  {
  }

  /** The step lifts the pause of a shard a workflow claims. */
  predicate LiftsClaimed(a: Action, g: Shard) {
    a == Unclaim(g, true) || a == LosePause(g)
  }

  lemma ClaimedStep(s: State, a: Action, g: Shard)
    requires Enabled(s, a) && g in s.paused && g in s.claimed && !LiftsClaimed(a, g)
    ensures g in Do(s, a).paused && (g in Do(s, a).claimed || a == Unclaim(g, false))
  {
  }

  /** A shard a workflow claims stays paused through any number of runs and recoveries,
      until the workflow resumes it or the server loses the pause. */
  lemma {:induction false} ClaimedStaysPaused(ss: seq<State>, acts: seq<Action>, i: nat, j: nat, g: Shard)
    requires IsRun(ss, acts) && i <= j < |ss| && g in ss[i].paused && g in ss[i].claimed
    requires forall k | i <= k < j :: !LiftsClaimed(acts[k], g) && acts[k] != Unclaim(g, false)
    ensures g in ss[j].paused && g in ss[j].claimed
  {
    if i < j {
      ClaimedStaysPaused(ss, acts, i, j - 1, g);
      StepOfRun(ss, acts, j - 1);
      ClaimedStep(ss[j-1], acts[j-1], g);
    }
  }

  lemma StepOfRun(ss: seq<State>, acts: seq<Action>, i: nat)
    requires IsRun(ss, acts) && i < |acts|
    ensures Enabled(ss[i], acts[i]) && ss[i+1] == Do(ss[i], acts[i])
  {
    assert StepAt(ss, acts, i);
  }

  /** And one that was retired, for as long as no resume finds something live on it. */
  predicate LiftsRetired(a: Action, g: Shard) {
    LiftsClaimed(a, g) || (a.Resume? && a.g == g && a.live)
  }

  lemma RetiredStep(s: State, a: Action, g: Shard)
    requires Enabled(s, a) && g in s.paused && g in s.retired && !LiftsRetired(a, g)
    ensures g in Do(s, a).paused && (g in Do(s, a).retired || a == Reinstate(g))
  {
  }

  lemma {:induction false} RetiredStaysPaused(ss: seq<State>, acts: seq<Action>, i: nat, j: nat, g: Shard)
    requires IsRun(ss, acts) && i <= j < |ss| && g in ss[i].paused && g in ss[i].retired
    requires forall k | i <= k < j :: !LiftsRetired(acts[k], g) && acts[k] != Reinstate(g)
    ensures g in ss[j].paused && g in ss[j].retired
  {
    if i < j {
      RetiredStaysPaused(ss, acts, i, j - 1, g);
      StepOfRun(ss, acts, j - 1);
      RetiredStep(ss[j-1], acts[j-1], g);
    }
  }

  /** Claiming or retiring a shard takes its pause out of the barriers' hands from then on,
      and giving the claim up, or putting the shard back, hands it to them again. */
  lemma TakenOverAndGivenBack(s: State, g: Shard, live: bool)
    requires g in s.paused && Free(s, g)
    ensures g in Resumed(DoWorld(s, Claim(g)), g, live).paused
    ensures g in Resumed(DoWorld(s, Retire(g)), g, false).paused
    ensures g !in Resumed(DoWorld(DoWorld(s, Claim(g)), Unclaim(g, false)), g, live).paused
    ensures g !in Resumed(DoWorld(DoWorld(s, Retire(g)), Reinstate(g)), g, live).paused
    ensures g !in Resumed(s, g, live).paused && g !in DoWorld(s, LosePause(g)).paused
  {
  }

  /** A restart of the catalog takes the fence that stands then out of every recovery's
      reach, and a completed restore is what lowers it. */
  lemma RestartKeepsTheFence(ss: seq<State>, acts: seq<Action>, i: nat)
    requires IsRun(ss, acts) && i < |ss| && ss[i].fence.owner != ""
    ensures var s' := Do(ss[i], RestartCatalog);
      && !Stale(s'.fence, s'.postmaster) && s'.fence == ss[i].fence && Restored(s')
      && Do(s', ClearAfterRestore).fence == LOWERED
  {
    RunKeepsTokens(ss, acts, i);
  }

  /** Told from the actions alone: a barrier paused g, as a listed shard that no workflow
      claimed and that was not retired, and nobody has taken the shard over since. */
  predicate BarriersToResume(ss: seq<State>, acts: seq<Action>, i: nat, g: Shard)
    requires |ss| == |acts| + 1 && i < |ss|
  {
    if i == 0 then false
    else
      var s, a := ss[i-1], acts[i-1];
      if a.PauseShard? && a.g == g && Free(s, g) then true
      else if TakesOver(a, g) then false
      else BarriersToResume(ss, acts, i - 1, g)
  }

  predicate Free(s: State, g: Shard) {
    g in s.listed && g !in s.claimed && g !in s.retired
  }

  lemma FreeStep(s: State, a: Action, g: Shard)
    requires Enabled(s, a) && Free(s, g) && a != Claim(g) && a != Retire(g) && a != DropShard(g)
    ensures Free(Do(s, a), g)
  {
  }

  lemma {:induction false} OursIsFree(ss: seq<State>, acts: seq<Action>, i: nat, g: Shard)
    requires IsRun(ss, acts) && i < |ss| && BarriersToResume(ss, acts, i, g)
    ensures Free(ss[i], g)
  {
    if i > 0 {
      StepOfRun(ss, acts, i - 1);
      if !(acts[i-1].PauseShard? && acts[i-1].g == g && Free(ss[i-1], g)) {
        OursIsFree(ss, acts, i - 1, g);
      }
      FreeStep(ss[i-1], acts[i-1], g);
    }
  }

  /** Takes the shard over, or its pause away. */
  predicate TakesOver(a: Action, g: Shard) {
    a == Claim(g) || a == Retire(g) || a == DropShard(g) || a == LosePause(g) || a == Unclaim(g, true)
  }

  lemma StrandedStep(s: State, a: Action, g: Shard)
    requires Enabled(s, a) && g in Do(s, a).paused
    ensures a.PauseShard? && a.g == g && Free(s, g) ==> g in Do(s, a).stranded
    ensures !(a.PauseShard? && a.g == g) ==> g in s.paused
    ensures g in s.stranded && !TakesOver(a, g) ==> g in Do(s, a).stranded
  {
  }

  lemma StrandedStepOfRun(ss: seq<State>, acts: seq<Action>, i: nat, g: Shard)
    requires IsRun(ss, acts) && i < |acts| && g in ss[i+1].paused
    ensures acts[i].PauseShard? && acts[i].g == g && Free(ss[i], g) ==> g in ss[i+1].stranded
    ensures !(acts[i].PauseShard? && acts[i].g == g) ==> g in ss[i].paused
    ensures g in ss[i].stranded && !TakesOver(acts[i], g) ==> g in ss[i+1].stranded
  {
    StepOfRun(ss, acts, i);
    StrandedStep(ss[i], acts[i], g);
  }

  /** Such a shard that is still paused is one a recovery has still to find. */
  lemma {:induction false} StillPausedIsStranded(ss: seq<State>, acts: seq<Action>, i: nat, g: Shard)
    requires IsRun(ss, acts) && i < |ss| && BarriersToResume(ss, acts, i, g) && g in ss[i].paused
    ensures g in ss[i].stranded
  {
    if i > 0 {
      StrandedStepOfRun(ss, acts, i - 1, g);
      if !(acts[i-1].PauseShard? && acts[i-1].g == g && Free(ss[i-1], g)) {
        OursIsFree(ss, acts, i - 1, g);
        StillPausedIsStranded(ss, acts, i - 1, g);
      }
    }
  }

  /** As long as the lock has been exclusive, a shard that a barrier paused, that nobody has
      taken over and that is still paused means the cluster fence is up, in every state of
      every sequence of runs and recoveries, crashed anywhere. */
  lemma StrandedPauseIsFenced(ss: seq<State>, acts: seq<Action>, i: nat, g: Shard)
    requires IsRun(ss, acts) && i < |ss| && ss[i].exclusive
    requires BarriersToResume(ss, acts, i, g) && g in ss[i].paused
    ensures ss[i].fence.active && ss[i].fence.fencedAt.Some?
  {
    RunKeepsStrand(ss, acts, i);
    StillPausedIsStranded(ss, acts, i, g);
  }

  /** A run that releases the fence, and a recovery that clears it, has first resumed every
      such shard: none of them is paused when the fence falls. */
  lemma FenceFallsAfterTheResumes(ss: seq<State>, acts: seq<Action>, i: nat, g: Shard)
    requires IsRun(ss, acts) && i < |acts| && ss[i].exclusive
    requires ss[i].fence.owner != "" && !ss[i+1].fence.active && !acts[i].ClearAfterRestore?
    ensures acts[i].ReleaseFence? || acts[i].ClearFence?
    ensures BarriersToResume(ss, acts, i, g) ==> g !in ss[i].paused
    ensures BarriersToResume(ss, acts, i + 1, g) ==> g !in ss[i+1].paused
  {
    NothingStranded(ss, acts, i);
    if BarriersToResume(ss, acts, i, g) && g in ss[i].paused {
      StillPausedIsStranded(ss, acts, i, g);
    }
    if BarriersToResume(ss, acts, i + 1, g) && g in ss[i+1].paused {
      StillPausedIsStranded(ss, acts, i + 1, g);
    }
  }

  // ------------------------------------------------- what came before

  /** Past the raise, and before the run goes to resume. */
  predicate RunListed(s: State, r: ActorId) {
    At(s, r, Listed) || At(s, r, Raised)
  }

  /** What a step that leaves r there has done to it. */
  predicate ListsOn(s: State, a: Action, s': State, r: ActorId)
    requires RunListed(s', r)
  {
    && (|| (RunListed(s, r) && s'.actors[r].groups == s.actors[r].groups)
        || (a == List(r) && s'.actors[r].groups == s.listed - s.retired))
    && (At(s', r, Raised) && !At(s, r, Raised) ==> a.RaiseFence? && a.r == r && a.replied && At(s, r, Listed))
  }

  lemma RunListsOn(s: State, a: Action, r: ActorId)
    requires ByRun(a) && Enabled(s, a) && RunListed(DoRun(s, a), r)
    ensures ListsOn(s, a, DoRun(s, a), r)
  {
  }

  lemma RecoveryListsOn(s: State, a: Action, r: ActorId)
    requires ByRecovery(a) && Enabled(s, a) && RunListed(DoRecovery(s, a), r)
    ensures ListsOn(s, a, DoRecovery(s, a), r)
  {
  }

  lemma WorldListsOn(s: State, a: Action, r: ActorId)
    requires !ByRun(a) && !ByRecovery(a) && RunListed(DoWorld(s, a), r)
    ensures ListsOn(s, a, DoWorld(s, a), r)
  {
  }

  lemma ListedStepOfRun(ss: seq<State>, acts: seq<Action>, i: nat, r: ActorId)
    requires IsRun(ss, acts) && i < |acts| && RunListed(ss[i+1], r)
    ensures ListsOn(ss[i], acts[i], ss[i+1], r)
  {
    StepOfRun(ss, acts, i);
    if ByRun(acts[i]) {
      RunListsOn(ss[i], acts[i], r);
    } else if ByRecovery(acts[i]) {
      RecoveryListsOn(ss[i], acts[i], r);
    } else {
      WorldListsOn(ss[i], acts[i], r);
    }
  }

  lemma {:induction false} ListedBefore(ss: seq<State>, acts: seq<Action>, i: nat, r: ActorId) returns (j: nat)
    requires IsRun(ss, acts) && i < |ss| && RunListed(ss[i], r)
    ensures j < i && acts[j] == List(r) && ss[i].actors[r].groups == ss[j].listed - ss[j].retired
  {
    assert i > 0;
    ListedStepOfRun(ss, acts, i - 1, r);
    if RunListed(ss[i-1], r) && ss[i].actors[r].groups == ss[i-1].actors[r].groups {
      j := ListedBefore(ss, acts, i - 1, r);
    } else {
      j := i - 1;
    }
  }

  lemma {:induction false} RaisedBefore(ss: seq<State>, acts: seq<Action>, i: nat, r: ActorId) returns (k: nat)
    requires IsRun(ss, acts) && i < |ss| && At(ss[i], r, Raised)
    ensures k < i && acts[k].RaiseFence? && acts[k].r == r && acts[k].replied
    ensures At(ss[k], r, Listed) && ss[k].actors[r].groups == ss[i].actors[r].groups
    ensures ss[k+1].fence.active && ss[k+1].fence.owner == ss[k].actors[r].token
  {
    assert i > 0;
    StepOfRun(ss, acts, i - 1);
    ListedStepOfRun(ss, acts, i - 1, r);
    if At(ss[i-1], r, Raised) {
      k := RaisedBefore(ss, acts, i - 1, r);
    } else {
      k := i - 1;
    }
  }

  /** Whenever a run pauses a shard, it has read it as listed and not retired, and has
      since then been told that the fence is up under its own token. */
  lemma PausesBehindItsFence(ss: seq<State>, acts: seq<Action>, i: nat) returns (j: nat, k: nat)
    requires IsRun(ss, acts) && i < |acts| && acts[i].PauseShard?
    ensures j < k < i && acts[j] == List(acts[i].r) && acts[i].g in ss[j].listed && acts[i].g !in ss[j].retired
    ensures acts[k].RaiseFence? && acts[k].r == acts[i].r && acts[k].replied
    ensures acts[i].r in ss[k].actors && ss[k+1].fence.active && ss[k+1].fence.owner == ss[k].actors[acts[i].r].token
  {
    StepOfRun(ss, acts, i);
    k := RaisedBefore(ss, acts, i, acts[i].r);
    j := ListedBefore(ss, acts, k, acts[i].r);
  }

  /** The step is a recovery's first, at a fence that has stood long enough. */
  predicate BeginsRecovery(s: State, a: Action, r: ActorId) {
    && a.StartRecovery? && a.r == r && s.fence.active
    && s.fence.fencedAt.Some? && s.fence.fencedAt.value + a.maxRun <= s.now
  }

  lemma RecoveryStepOfRun(ss: seq<State>, acts: seq<Action>, i: nat, r: ActorId)
    requires IsRun(ss, acts) && i < |acts| && r in ss[i+1].actors && ss[i+1].actors[r].token == ""
    ensures if r in ss[i].actors then ss[i].actors[r].token == "" else BeginsRecovery(ss[i], acts[i], r)
  {
    StepOfRun(ss, acts, i);
    ActorMoves(ss[i], acts[i], r);
    if r !in ss[i].actors { StartsHere(ss[i], acts[i], r); }
  }

  lemma StartsHere(s: State, a: Action, r: ActorId)
    requires Enabled(s, a) && r !in s.actors && r in Do(s, a).actors
    ensures a == StartRun(r, Do(s, a).actors[r].token) || BeginsRecovery(s, a, r)
    ensures a.StartRun? ==> Do(s, a).actors[r].token != ""
  {
  }

  /** A recovery at any stage began by finding a fence that had stood for the time it was
      told to wait. */
  lemma {:induction false} RecoveryWaitsOut(ss: seq<State>, acts: seq<Action>, i: nat, r: ActorId) returns (j: nat)
    requires IsRun(ss, acts) && i < |ss| && r in ss[i].actors && ss[i].actors[r].token == ""
    ensures j < i && BeginsRecovery(ss[j], acts[j], r)
  {
    assert i > 0;
    RecoveryStepOfRun(ss, acts, i - 1, r);
    if r in ss[i-1].actors {
      j := RecoveryWaitsOut(ss, acts, i - 1, r);
    } else {
      j := i - 1;
    }
  }

  // ------------------------------------------- every interruption can be recovered

  lemma Take(ss: seq<State>, acts: seq<Action>, a: Action) returns (ss': seq<State>, acts': seq<Action>)
    requires IsRun(ss, acts) && Enabled(ss[|acts|], a)
    ensures IsRun(ss', acts') && acts' == acts + [a] && ss' == ss + [Do(ss[|acts|], a)]
  {
    ss', acts' := ss + [Do(ss[|acts|], a)], acts + [a];
    forall i: nat | i < |acts'| ensures StepAt(ss', acts', i) {
      if i < |acts| { assert StepAt(ss, acts, i); }
    }
  }

  /** What a pass of r over its shards leaves alone. */
  predicate SamePass(s: State, s': State, r: ActorId) {
    && r in s.actors && r in s'.actors && s'.actors[r].token == s.actors[r].token
    && s'.fence == s.fence && s'.lock == s.lock && s'.exclusive == s.exclusive && s'.postmaster == s.postmaster
  }

  lemma {:induction false} CanResumeAll(ss: seq<State>, acts: seq<Action>, r: ActorId) returns (ss': seq<State>, acts': seq<Action>)
    requires IsRun(ss, acts) && At(ss[|acts|], r, Resuming(true))
    ensures IsRun(ss', acts') && acts <= acts' && SamePass(ss[|acts|], ss'[|acts'|], r)
    ensures At(ss'[|acts'|], r, Resuming(true)) && ss'[|acts'|].actors[r].left == {}
    decreases |ss[|acts|].actors[r].left|
  {
    var s := ss[|acts|];
    if s.actors[r].left == {} {
      ss', acts' := ss, acts;
    } else {
      var g :| g in s.actors[r].left;
      ss', acts' := Take(ss, acts, Resume(r, g, false, Done));
      assert ss'[|acts'|].actors[r].left == s.actors[r].left - {g};
      ss', acts' := CanResumeAll(ss', acts', r);
    }
  }

  lemma {:induction false} CanProbeAll(ss: seq<State>, acts: seq<Action>, r: ActorId) returns (ss': seq<State>, acts': seq<Action>)
    requires IsRun(ss, acts) && At(ss[|acts|], r, Probing)
    ensures IsRun(ss', acts') && acts <= acts' && SamePass(ss[|acts|], ss'[|acts'|], r)
    ensures At(ss'[|acts'|], r, Resuming(true)) || (At(ss'[|acts'|], r, Probing) && ss'[|acts'|].actors[r].left == {})
    decreases |ss[|acts|].actors[r].left|
  {
    var s := ss[|acts|];
    if s.actors[r].left == {} {
      ss', acts' := ss, acts;
    } else {
      var g :| g in s.actors[r].left;
      ss', acts' := Take(ss, acts, Probe(r, g));
      if g !in s.paused {
        assert ss'[|acts'|].actors[r].left == s.actors[r].left - {g};
        ss', acts' := CanProbeAll(ss', acts', r);
      }
    }
  }

  lemma {:induction false} HolderIsThere(ss: seq<State>, acts: seq<Action>, i: nat)
    requires IsRun(ss, acts) && i < |ss|
    ensures ss[i].lock.Some? ==> ss[i].lock.value in ss[i].actors
  {
    if i > 0 {
      HolderIsThere(ss, acts, i - 1);
      StepOfRun(ss, acts, i - 1);
    }
  }

  /** The fence is down, the lock free, and no shard is paused that a barrier paused and
      nobody took over. */
  predicate AllClear(ss: seq<State>, acts: seq<Action>)
    requires |ss| == |acts| + 1
  {
    && !ss[|acts|].fence.active && ss[|acts|].lock.None?
    && forall g | g in ss[|acts|].paused :: !BarriersToResume(ss, acts, |acts|, g)
  }

  lemma LowersAndEnds(ss: seq<State>, acts: seq<Action>, r: ActorId, a: Action) returns (ss': seq<State>, acts': seq<Action>)
    requires IsRun(ss, acts) && ss[|acts|].exclusive && ss[|acts|].lock == Some(r) && r in ss[|acts|].actors
    requires Enabled(ss[|acts|], a) && (a == ReleaseFence(r) || a == ClearFence(r)) && ss[|acts|].fence.owner != ""
    requires !Do(ss[|acts|], a).fence.active
    ensures IsRun(ss', acts') && acts <= acts' && AllClear(ss', acts')
  {
    var n := |acts|;
    ss', acts' := Take(ss, acts, a);
    ss', acts' := Take(ss', acts', End(r));
    forall g | g in ss'[|acts'|].paused ensures !BarriersToResume(ss', acts', |acts'|, g) {
      FenceFallsAfterTheResumes(ss', acts', n, g);
    }
  }

  /** Whoever holds the lock crashes. */
  lemma FreesTheLock(ss: seq<State>, acts: seq<Action>) returns (ss': seq<State>, acts': seq<Action>)
    requires IsRun(ss, acts)
    ensures IsRun(ss', acts') && acts <= acts' && ss'[|acts'|].lock.None? && ss'[|acts'|].exclusive == ss[|acts|].exclusive
    ensures ss'[|acts'|].fence == ss[|acts|].fence && ss'[|acts'|].now == ss[|acts|].now && ss'[|acts'|].postmaster == ss[|acts|].postmaster
    ensures ss'[|acts'|].actors.Keys <= ss[|acts|].actors.Keys
  {
    ss', acts' := ss, acts;
    if ss[|acts|].lock.Some? {
      HolderIsThere(ss, acts, |acts|);
      ss', acts' := Take(ss, acts, End(ss[|acts|].lock.value));
    }
  }

  /** A run that has raised its fence can always finish: it resumes what it listed, and its
      fence comes down. */
  lemma RunCanFinish(ss: seq<State>, acts: seq<Action>, r: ActorId) returns (ss': seq<State>, acts': seq<Action>)
    requires IsRun(ss, acts) && ss[|acts|].exclusive && At(ss[|acts|], r, Raised)
    ensures IsRun(ss', acts') && acts <= acts' && AllClear(ss', acts')
  {
    RunKeepsStrand(ss, acts, |acts|);
    assert HolderOk(ss[|acts|], ss[|acts|].actors[r]);
    ss', acts' := Take(ss, acts, BeginResume(r));
    ss', acts' := CanResumeAll(ss', acts', r);
    ss', acts' := Take(ss', acts', FinishPass(r));
    ss', acts' := LowersAndEnds(ss', acts', r, ReleaseFence(r));
  }

  /** The recovery r goes through all its shards. */
  lemma RecoveryPasses(ss: seq<State>, acts: seq<Action>, r: ActorId) returns (ss': seq<State>, acts': seq<Action>)
    requires IsRun(ss, acts) && At(ss[|acts|], r, Probing) && ss[|acts|].actors[r].token == ""
    ensures IsRun(ss', acts') && acts <= acts' && SamePass(ss[|acts|], ss'[|acts'|], r) && At(ss'[|acts'|], r, Clearing)
  {
    ss', acts' := CanProbeAll(ss, acts, r);
    if At(ss'[|acts'|], r, Resuming(true)) {
      ss', acts' := CanResumeAll(ss', acts', r);
    }
    ss', acts' := Take(ss', acts', FinishPass(r));
  }

  /** Wherever a run or a recovery is interrupted, a later recovery can clear what it left:
      from every state with a fence raised since the postmaster started and old enough, there
      is a way to the fence down, the lock free and every such shard resumed. */
  lemma InterruptedRunCanBeRecovered(ss: seq<State>, acts: seq<Action>, r: ActorId, maxRun: nat) returns (ss': seq<State>, acts': seq<Action>)
    requires IsRun(ss, acts) && ss[|acts|].exclusive && r !in ss[|acts|].actors
    requires Stale(ss[|acts|].fence, ss[|acts|].postmaster) && ss[|acts|].now >= ss[|acts|].fence.fencedAt.value + maxRun
    ensures IsRun(ss', acts') && acts <= acts' && AllClear(ss', acts')
  {
    ss', acts' := FreesTheLock(ss, acts);
    ss', acts' := Take(ss', acts', StartRecovery(r, maxRun));
    ss', acts' := Take(ss', acts', LockRecovery(r));
    ss', acts' := Take(ss', acts', List(r));
    ss', acts' := RecoveryPasses(ss', acts', r);
    ss', acts' := LowersAndEnds(ss', acts', r, ClearFence(r));
  }
}
