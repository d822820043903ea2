/**
 The cluster write fence: one singleton row that routers obey, raised with an
 owner token by a barrier and without one by the restore path.
 */
module WriteFence {
  import opened Common

  type Token = string
  type Time = nat

  /** The fence columns of the row; the empty token means nobody owns the fence. */
  datatype Fence = Fence(active: bool, reason: string, owner: Token, fencedAt: Option<Time>)

  const LOWERED := Fence(false, "", "", None)

  /** An owned fence is up and says since when. */
  predicate Sound(f: Fence) {
    f.owner != "" ==> f.active && f.fencedAt.Some?
  }

  function Raise(f: Fence, reason: string, owner: Token, now: Time): Fence {
    Fence(true, reason, owner, Some(now))
  }

  function Release(f: Fence, owner: Token): Fence {
    if f.owner == owner then LOWERED else f
  }

  function SetUnowned(f: Fence, active: bool, reason: string, now: Time): Fence {
    if f.owner != "" then f
    else Fence(active, if active then reason else "", "", if active then Some(now) else None)
  }

  /** Only a fence an owner raised while this postmaster was up is stale: an older
      one came out of a backup. */
  predicate Stale(f: Fence, postmaster: Time) {
    f.active && f.owner != "" && f.fencedAt.Some? && f.fencedAt.value > postmaster
  }

  function ClearStale(f: Fence, postmaster: Time): Fence {
    if Stale(f, postmaster) then LOWERED else f
  }

  /** What a raised fence means for everybody: it is its owner's alone to release, no
      other owner's release and no unowned set changes it, a recovery clears it exactly if
      it was raised after the postmaster started, and releasing it leaves a fence anybody
      can raise and lower. */
  lemma RaisedUntilReleased(f: Fence, reason: string, owner: Token, now: Time, other: Token, postmaster: Time)
    requires owner != "" && other != ""
    ensures var up := Raise(f, reason, owner, now);
      && Sound(up) && up.active && up.reason == reason && up.owner == owner && up.fencedAt == Some(now)
      && Release(up, other) == (if other == owner then LOWERED else up)
      && (forall active, why, at :: SetUnowned(up, active, why, at) == up)
      && ClearStale(up, postmaster) == (if now > postmaster then LOWERED else up)
    ensures var down := Release(Raise(f, reason, owner, now), owner);
      forall why, at :: SetUnowned(down, true, why, at) == Fence(true, why, "", Some(at)) && SetUnowned(down, false, why, at) == LOWERED
  {
  }

  /** The row itself; every method is one UPDATE statement. */
  class FenceRow {
    var active: bool
    var reason: string
    var owner: Token
    var fencedAt: Option<Time>

    function Value(): Fence
      reads this
    {
      Fence(active, reason, owner, fencedAt)
    }

    constructor ()
      ensures Value() == LOWERED
    {
      active, reason, owner, fencedAt := false, "", "", None;
    }

    method RaiseWriteFence(why: string, token: Token, now: Time)
      requires token != ""
      modifies this
      ensures Value() == Raise(old(Value()), why, token, now) && Sound(Value())
    {
      active, reason, owner, fencedAt := true, why, token, Some(now);
    }

    /** Clears the fence if token still holds it, and says whether it did. */
    method ReleaseWriteFence(token: Token) returns (cleared: bool)
      requires token != "" && Sound(Value())
      modifies this
      ensures Value() == Release(old(Value()), token) && Sound(Value())
      ensures cleared == (old(owner) == token)
      ensures !cleared ==> Value() == old(Value())
      ensures cleared ==> old(active) && !active
    {
      cleared := owner == token;
      if cleared { active, reason, owner, fencedAt := false, "", "", None; }
    }

    /** Refuses to touch a fence some barrier owns. */
    method SetWriteFence(raise: bool, why: string, now: Time) returns (refused: bool)
      requires Sound(Value())
      modifies this
      ensures Value() == SetUnowned(old(Value()), raise, why, now) && Sound(Value())
      ensures refused <==> old(owner) != ""
      ensures refused ==> Value() == old(Value())
      ensures !refused ==> active == raise && owner == ""
    {
      refused := owner != "";
      if !refused {
        active, reason, fencedAt := raise, if raise then why else "", if raise then Some(now) else None;
      }
    }

    method ClearStaleBarrierFence(postmaster: Time) returns (cleared: bool)
      requires Sound(Value())
      modifies this
      ensures Value() == ClearStale(old(Value()), postmaster) && Sound(Value())
      ensures cleared <==> Stale(old(Value()), postmaster)
      ensures !cleared ==> Value() == old(Value())
    {
      cleared := active && owner != "" && fencedAt.value > postmaster;
      if cleared { active, reason, owner, fencedAt := false, "", "", None; }
    }

    method ClearWriteFenceAfterRestore()
      modifies this
      ensures Value() == LOWERED
    {
      active, reason, owner, fencedAt := false, "", "", None;
    }

    method FenceOwnedBy(token: Token) returns (mine: bool)
      requires Sound(Value()) && token != ""
      ensures mine <==> owner == token
    {
      mine := active && owner == token;
    }
  }
}
