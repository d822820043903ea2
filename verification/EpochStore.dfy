/**
 The agent's epoch fence: two files, the process that reads and writes them, and the
 term every admitted operation runs under.  The configured file is outside the data
 directory; the legacy one is inside it, where a clone, a rewind or a wipe replaces it
 at any time, and is the only one an older binary knows.
 */
module EpochStore {
  import opened Common

  type OpId = nat
  type TermId = nat

  datatype File = Missing | Epoch(value: nat) | Unreadable

  /** `initialised` is whether the data directory holds a database. */
  datatype Files = Files(configured: File, legacy: File, initialised: bool)

  datatype Binary = Down | Current | Older

  /** How the write of a file ended: it can be in place although an error came back. */
  datatype Written = Synced | Renamed | Untouched

  /** An operation admitted under an epoch, and the term it was given. */
  datatype Op = Op(epoch: nat, term: TermId)

  /** The disk, and the memory of the running process. */
  datatype Store = Store(files: Files, binary: Binary, epoch: nat, term: Option<TermId>, cancelled: set<TermId>, nextTerm: TermId, ops: map<OpId, Op>)

  function Value(f: File): nat {
    if f.Epoch? then f.value else 0
  }

  function Max(a: nat, b: nat): nat {
    if a < b then b else a
  }

  /** The file a write leaves behind. */
  function After(f: File, epoch: nat, w: Written): File {
    if w == Untouched then f else Epoch(epoch)
  }

  function Stopped(s: Store): Store {
    s.(binary := Down, term := None, cancelled := {}, ops := map[])
  }

  // ---------------------------------------------------------- operations

  /** The higher of the two files, written through to the configured one when that one
      is behind.  A file that cannot be read or written keeps the store closed. */
  function Opened(s: Store, older: bool, w: Written): Store {
    if older then
      if s.files.legacy.Unreadable? then Stopped(s)
      else Stopped(s).(binary := Older, epoch := Value(s.files.legacy))
    else if s.files.configured.Unreadable? || s.files.legacy.Unreadable? then Stopped(s)
    else
      var epoch := Max(Value(s.files.configured), Value(s.files.legacy));
      if epoch > Value(s.files.configured) || (s.files.configured.Missing? && epoch > 0) then
        var s' := Stopped(s).(files := s.files.(configured := After(s.files.configured, epoch, w)));
        if w == Synced then s'.(binary := Current, epoch := epoch) else s'
      else Stopped(s).(binary := Current, epoch := epoch)
  }

  /** A strictly later epoch is on disk before it is current, and ends the term of
      everything admitted before it.  The copy in the data directory is best effort,
      and made only in an initialised one. */
  function Accepted(s: Store, epoch: nat, w: Written, copy: Written): Store {
    if epoch <= s.epoch then s
    else if s.binary == Older then
      var s' := s.(files := s.files.(legacy := After(s.files.legacy, epoch, w)));
      if w == Synced then Renewed(s', epoch) else s'
    else
      var s' := s.(files := s.files.(configured := After(s.files.configured, epoch, w)));
      if w != Synced then s'
      else if s.files.initialised then Renewed(s'.(files := s'.files.(legacy := After(s.files.legacy, epoch, copy))), epoch)
      else Renewed(s', epoch)
  }

  function Renewed(s: Store, epoch: nat): Store {
    s.(epoch := epoch, term := Some(s.nextTerm), nextTerm := s.nextTerm + 1,
       cancelled := if s.term.Some? then s.cancelled + {s.term.value} else s.cancelled)
  }

  /** An operation of the current epoch is admitted under the current term, which the
      first one creates. */
  function Admitted(s: Store, op: OpId, epoch: nat): Store {
    if epoch != s.epoch then s
    else if s.term.Some? then s.(ops := s.ops[op := Op(epoch, s.term.value)])
    else s.(term := Some(s.nextTerm), nextTerm := s.nextTerm + 1, ops := s.ops[op := Op(epoch, s.nextTerm)])
  }

  /** The current binary comes up exactly on two readable files, of which the configured one
      is not behind or has been brought up to date for certain. */
  predicate Opens(f: Files, w: Written) {
    !f.configured.Unreadable? && !f.legacy.Unreadable? && (Value(f.legacy) <= Value(f.configured) || w == Synced)
  }

  datatype Answer = Refused | Failed | Done

  class EpochStore {
    var files: Files
    var binary: Binary
    var epoch: nat
    var term: Option<TermId>
    var cancelled: set<TermId>
    var nextTerm: TermId
    var ops: map<OpId, Op>

    ghost function State(): Store
      reads this
    {
      Store(files, binary, epoch, term, cancelled, nextTerm, ops)
    }

    constructor (f: Files)
      ensures files == f && binary == Down && nextTerm == 0 && ops == map[] && cancelled == {} && term == None
    {
      files, binary, epoch := f, Down, 0;
      term, cancelled, nextTerm, ops := None, {}, 0, map[];
    }

    method OpenAt(older: bool, w: Written) returns (ok: bool)
      modifies this
      ensures State() == Opened(old(State()), older, w)
      ensures ok <==> binary != Down
      ensures !older ==> (ok <==> Opens(old(files), w))
      ensures older ==> (ok <==> !old(files).legacy.Unreadable?)
      ensures ok && !older ==> epoch == Max(Value(old(files).configured), Value(old(files).legacy)) == Value(files.configured)
    {
      binary, term, cancelled, ops := Down, None, {}, map[];
      if older {
        if files.legacy.Unreadable? {
          return false;
        }
        binary, epoch := Older, Value(files.legacy);
        return true;
      }
      if files.configured.Unreadable? || files.legacy.Unreadable? {
        return false;
      }
      var higher := Max(Value(files.configured), Value(files.legacy));
      if higher > Value(files.configured) || (files.configured.Missing? && higher > 0) {
        files := files.(configured := After(files.configured, higher, w));
        if w != Synced {
          return false;
        }
      }
      binary, epoch := Current, higher;
      return true;
    }

    method Accept(e: nat, w: Written, copy: Written) returns (r: Answer)
      requires binary != Down
      modifies this
      ensures State() == Accepted(old(State()), e, w, copy)
      ensures r == Refused <==> e <= old(epoch)
      ensures r == Done ==> epoch == e && (if binary == Older then files.legacy else files.configured) == Epoch(e)
      ensures r != Done ==> epoch == old(epoch) && term == old(term)
    {
      if e <= epoch {
        return Refused;
      }
      if binary == Older {
        files := files.(legacy := After(files.legacy, e, w));
      } else {
        files := files.(configured := After(files.configured, e, w));
      }
      if w != Synced {
        return Failed;
      }
      if binary == Current && files.initialised {
        files := files.(legacy := After(files.legacy, e, copy));
      }
      epoch := e;
      if term.Some? {
        cancelled := cancelled + {term.value};
      }
      term, nextTerm := Some(nextTerm), nextTerm + 1;
      return Done;
    }

    method Term(op: OpId, e: nat) returns (r: Option<TermId>)
      requires binary != Down
      modifies this
      ensures State() == Admitted(old(State()), op, e)
      ensures r.Some? <==> e == epoch
      ensures r.Some? ==> op in ops && ops[op] == Op(e, r.value) && term == r
    {
      if e != epoch {
        return None;
      }
      if term.None? {
        term, nextTerm := Some(nextTerm), nextTerm + 1;
      }
      ops := ops[op := Op(e, term.value)];
      return term;
    }
  }

  // ----------------------------------------------------------- histories

  datatype Action =
    | Open(older: bool, w: Written)
    | Accept(epoch: nat, w: Written, copy: Written)
    | Admit(op: OpId, epoch: nat)
    | EndOp(op: OpId)
    | Crash
    | Replace(legacy: File, initialised: bool)

  /** The store with its history: the epochs each binary accepted, and whether the
      legacy file was ever replaced by a lower one before the configured file had
      caught up with it. */
  datatype History = History(s: Store, accepted: set<nat>, acceptedOlder: set<nat>, dropped: bool)

  predicate Enabled(h: History, a: Action) {
    match a
    case Open(_, _) => h.s.binary == Down
    case Accept(_, _, _) => h.s.binary != Down
    case Admit(op, _) => h.s.binary != Down && op !in h.s.ops
    case EndOp(op) => op in h.s.ops
    case Crash => true
    case Replace(_, _) => true
  }

  /** A caller can see, from the files alone, that replacing the legacy one lowers the
      fence a reopened store would come up with. */
  predicate Lowers(files: Files, legacy: File) {
    Value(files.legacy) > Max(Value(files.configured), Value(legacy))
  }

  function Do(h: History, a: Action): History
    requires Enabled(h, a)
  {
    match a
    case Open(older, w) => h.(s := Opened(h.s, older, w))
    case Accept(epoch, w, copy) =>
      var s' := Accepted(h.s, epoch, w, copy);
      var done := epoch > h.s.epoch && w == Synced;
      h.(s := s',
         accepted := if done && h.s.binary == Current then h.accepted + {epoch} else h.accepted,
         acceptedOlder := if done && h.s.binary == Older then h.acceptedOlder + {epoch} else h.acceptedOlder)
    case Admit(op, epoch) => h.(s := Admitted(h.s, op, epoch))
    case EndOp(op) => h.(s := h.s.(ops := h.s.ops - {op}))
    case Crash => h.(s := Stopped(h.s))
    case Replace(legacy, initialised) =>
      h.(s := h.s.(files := h.s.files.(legacy := legacy, initialised := initialised)), dropped := h.dropped || Lowers(h.s.files, legacy))
  }

  predicate Init(h: History) {
    && h.s.binary == Down && h.s.term.None? && h.s.cancelled == {} && h.s.ops == map[]
    && h.accepted == {} && h.acceptedOlder == {} && !h.dropped
  }

  ghost predicate IsRun(hs: seq<History>, acts: seq<Action>) {
    && |hs| == |acts| + 1 && Init(hs[0])
    && forall i | 0 <= i < |acts| :: Enabled(hs[i], acts[i]) && hs[i+1] == Do(hs[i], acts[i])
  }

  /** What a store opened now by the current binary would come up with. */
  function Fence(files: Files): nat {
    Max(Value(files.configured), Value(files.legacy))
  }

  ghost predicate FenceInv(h: History) {
    && (h.s.binary == Current ==> h.s.epoch <= Value(h.s.files.configured))
    && (forall e | e in h.accepted :: e <= Value(h.s.files.configured))
    && (forall e | e in h.accepted && h.s.binary == Current :: e <= h.s.epoch)
    && (!h.dropped ==> forall e | e in h.acceptedOlder ::
          && e <= Fence(h.s.files)
          && (h.s.binary == Current ==> e <= h.s.epoch)
          && (h.s.binary == Older ==> e <= Max(Value(h.s.files.configured), h.s.epoch)))
  }

  lemma StepKeepsFence(h: History, a: Action)
    requires FenceInv(h) && Enabled(h, a)
    ensures FenceInv(Do(h, a))
  {
  }

  /** The live operations are exactly those of the current epoch. */
  ghost predicate TermInv(s: Store) {
    && (s.term.None? ==> s.ops == map[] && s.cancelled == {})
    && (s.term.Some? ==> s.term.value < s.nextTerm && s.term.value !in s.cancelled)
    && (forall t | t in s.cancelled :: t < s.nextTerm)
    && (forall op | op in s.ops :: OpOk(s, s.ops[op]))
  }

  predicate OpOk(s: Store, op: Op) {
    op.epoch <= s.epoch && (op.epoch == s.epoch <==> Some(op.term) == s.term) && (Some(op.term) != s.term ==> op.term in s.cancelled)
  }

  lemma StepKeepsTerms(h: History, a: Action)
    requires TermInv(h.s) && Enabled(h, a)
    ensures TermInv(Do(h, a).s)
  {
    var s' := Do(h, a).s;
    forall op | op in s'.ops ensures OpOk(s', s'.ops[op]) {
      if op in h.s.ops {
        assert OpOk(h.s, h.s.ops[op]);
      }
    }
  }

  lemma {:induction false} RunKeepsInv(hs: seq<History>, acts: seq<Action>, i: nat)
    requires IsRun(hs, acts) && i < |hs|
    ensures FenceInv(hs[i]) && TermInv(hs[i].s)
  {
    if i > 0 {
      RunKeepsInv(hs, acts, i - 1);
      assert hs[i-1+1] == Do(hs[i-1], acts[i-1]);
      StepKeepsFence(hs[i-1], acts[i-1]);
      StepKeepsTerms(hs[i-1], acts[i-1]);
    }
  }

  /** Whatever was replaced under it and however often it crashed, a store the current
      binary reopens is at or above every epoch that binary ever accepted; and above
      what an older binary accepted too, unless a lower legacy file was put in place of
      one the configured file had not caught up with. */
  lemma ReopenedAtOrAbove(hs: seq<History>, acts: seq<Action>, i: nat, e: nat)
    requires IsRun(hs, acts) && i < |acts| && acts[i].Open? && !acts[i].older && hs[i+1].s.binary == Current
    requires e in hs[i].accepted || (e in hs[i].acceptedOlder && !hs[i].dropped)
    ensures hs[i+1].s.epoch >= e && Value(hs[i+1].s.files.configured) >= e
  {
    RunKeepsInv(hs, acts, i);
    assert hs[i+1] == Do(hs[i], acts[i]);
  }

  /** An admitted operation's term is live exactly while its epoch is current. */
  lemma LiveWhileCurrent(hs: seq<History>, acts: seq<Action>, i: nat, op: OpId)
    requires IsRun(hs, acts) && i < |hs| && op in hs[i].s.ops
    ensures hs[i].s.ops[op].term !in hs[i].s.cancelled <==> hs[i].s.ops[op].epoch == hs[i].s.epoch
  {
    RunKeepsInv(hs, acts, i);
    assert OpOk(hs[i].s, hs[i].s.ops[op]);
  }

  /** A rolled-back binary finds the epoch the current one accepted exactly when it was
      copied into an initialised data directory, or was there already. */
  lemma OlderBinaryFindsTheEpoch(h: History, epoch: nat, copy: Written)
    requires h.s.binary == Current && epoch > h.s.epoch && !h.s.files.legacy.Unreadable?
    ensures var h3 := Do(Do(Do(h, Accept(epoch, Synced, copy)), Crash), Open(true, Synced));
      h3.s.epoch == epoch <==> (h.s.files.initialised && copy != Untouched) || Value(h.s.files.legacy) == epoch
  {
    var h1 := Do(h, Accept(epoch, Synced, copy));
    assert h1.s.files.legacy == if h.s.files.initialised then After(h.s.files.legacy, epoch, copy) else h.s.files.legacy;
  }

  /** An older binary's epoch and a replaced data directory: the reopened store is at or
      above it exactly when the configured file or the new legacy one is. */
  lemma OlderEpochSurvivesReplacement(h: History, epoch: nat, legacy: File, initialised: bool)
    requires h.s.binary == Older && epoch > h.s.epoch
    requires !h.s.files.configured.Unreadable? && !legacy.Unreadable?
    ensures var h1 := Do(h, Accept(epoch, Synced, Synced));
      var h4 := Do(Do(Do(h1, Crash), Replace(legacy, initialised)), Open(false, Synced));
      && epoch in h4.acceptedOlder && h4.s.binary == Current
      && (h4.s.epoch >= epoch <==> Max(Value(h.s.files.configured), Value(legacy)) >= epoch)
      && (h4.s.epoch < epoch <==> Lowers(h1.s.files, legacy))
  {
  }

  /** Rolled back to the older binary, promoted under epoch 7, wiped and rolled forward:
      the store comes up at 0 and would accept epoch 1 again. */
  lemma RolledBackEpochIsLost() returns (hs: seq<History>, acts: seq<Action>)
    ensures IsRun(hs, acts) && 7 in hs[|acts|].acceptedOlder && hs[|acts|].s.binary == Current && hs[|acts|].s.epoch == 0
  {
    var h := History(Store(Files(Missing, Missing, true), Down, 0, None, {}, 0, map[]), {}, {}, false);
    acts := [Open(true, Synced), Accept(7, Synced, Synced), Crash, Replace(Missing, false), Open(false, Synced)];
    var h1 := Do(h, acts[0]);
    var h2 := Do(h1, acts[1]);
    var h3 := Do(h2, acts[2]);
    var h4 := Do(h3, acts[3]);
    var h5 := Do(h4, acts[4]);
    hs := [h, h1, h2, h3, h4, h5];
  }
}
