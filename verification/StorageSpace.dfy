/** Space reserved by downloads that have not finished. */
module StorageSpace {

  /** What is found where the files go: no directory is set, its volume cannot be
      read, the free space is not known, or so many bytes are free. */
  datatype Volume = Unset | Unreadable | Unknown | Free(bytes: int)

  datatype Outcome = Granted | Insufficient | Failed

  function Total(grants: seq<int>): int {
    if grants == [] then 0 else Total(grants[..|grants| - 1]) + grants[|grants| - 1]
  }

  lemma {:induction false} TotalUpdated(grants: seq<int>, i: nat, bytes: int)
    requires i < |grants|
    ensures Total(grants[i := bytes]) == Total(grants) - grants[i] + bytes
    decreases |grants|
  {
    var last := |grants| - 1;
    var updated := grants[i := bytes];
    if i < last {
      assert updated[..last] == grants[..last][i := bytes];
      TotalUpdated(grants[..last], i, bytes);
    } else {
      assert updated[..last] == grants[..last];
    }
  }

  lemma {:induction false} TotalNotNegative(grants: seq<int>)
    requires forall i | 0 <= i < |grants| :: grants[i] >= 0
    ensures Total(grants) >= 0
    decreases |grants|
  {
    if grants != [] {
      TotalNotNegative(grants[..|grants| - 1]);
    }
  }

  /** Enough is left on a volume for what is reserved and what must stay free. */
  predicate LeavesReserve(v: Volume, reserved: int, reserve: int) {
    v.Free? ==> v.bytes - reserved >= reserve
  }

  /** Nothing is wrong with the first `count` volumes. */
  ghost predicate Fine(volumes: seq<Volume>, count: nat, reserved: int, reserve: int) {
    forall i | 0 <= i < count && i < |volumes| :: !volumes[i].Unreadable? && LeavesReserve(volumes[i], reserved, reserve)
  }

  /** The first thing found wrong is volume `i`. */
  ghost predicate StopsAt(volumes: seq<Volume>, i: nat, reserved: int, reserve: int) {
    i < |volumes| && Fine(volumes, i, reserved, reserve) && (volumes[i].Unreadable? || !LeavesReserve(volumes[i], reserved, reserve))
  }

  class Manager {
    const reserve: int
    var reservedBytes: int
    /** What each grant still holds; zero once it is released. */
    ghost var grants: seq<int>
    /** Which grants have been released. */
    var released: seq<bool>

    ghost predicate Valid()
      reads this
    {
      && reservedBytes == Total(grants) && |released| == |grants|
      && (forall i | 0 <= i < |grants| :: grants[i] >= 0 && (released[i] ==> grants[i] == 0))
    }

    constructor (reserve: int)
      ensures Valid() && this.reserve == reserve && grants == [] && reservedBytes == 0
    {
      this.reserve := reserve;
      reservedBytes, grants, released := 0, [], [];
    }

    method CheckFreeSpace(required: int, volumes: seq<Volume>) returns (outcome: Outcome, ghost found: nat)
      ensures outcome.Granted? ==> Fine(volumes, |volumes|, reservedBytes + required, reserve)
      ensures !outcome.Granted? ==> StopsAt(volumes, found, reservedBytes + required, reserve)
      ensures !outcome.Granted? ==> (outcome.Failed? <==> volumes[found].Unreadable?)
    {
      for i := 0 to |volumes|
        invariant Fine(volumes, i, reservedBytes + required, reserve)
      {
        match volumes[i]
        case Unset =>
        case Unreadable => return Failed, i;
        case Unknown =>
        case Free(available) =>
          if available - reservedBytes - required < reserve {
            return Insufficient, i;
          }
      }
      return Granted, 0;
    }

    /** Reserves space when every known volume keeps its reserve after it. */
    method ReserveSpace(required: nat, volumes: seq<Volume>) returns (outcome: Outcome, grant: nat, ghost found: nat)
      requires Valid()
      modifies this
      ensures Valid()
      ensures outcome.Granted? ==>
                && (forall i | 0 <= i < |volumes| :: LeavesReserve(volumes[i], reservedBytes, reserve))
                && reservedBytes == old(reservedBytes) + required
                && grant == |old(grants)| && grants == old(grants) + [required] && released == old(released) + [false]
      ensures !outcome.Granted? ==> reservedBytes == old(reservedBytes) && grants == old(grants) && released == old(released)
      ensures outcome.Granted? <==> Fine(volumes, |volumes|, old(reservedBytes) + required, reserve)
      ensures !outcome.Granted? ==> StopsAt(volumes, found, reservedBytes + required, reserve)
      ensures !outcome.Granted? ==> (outcome.Failed? <==> volumes[found].Unreadable?)
    {
      outcome, found := CheckFreeSpace(required, volumes);
      grant := |released|;
      if outcome.Granted? {
        reservedBytes := reservedBytes + required;
        assert (grants + [required])[..|grants|] == grants;
        grants := grants + [required];
        released := released + [false];
      }
    }

    /** Gives a grant back; only the first call does anything. */
    method Release(grant: nat, required: nat)
      requires Valid() && grant < |released| && (!released[grant] ==> grants[grant] == required)
      modifies this
      ensures Valid() && released == old(released)[grant := true] && grants == old(grants)[grant := 0]
      ensures reservedBytes == old(reservedBytes) - if old(released)[grant] then 0 else required
    {
      TotalUpdated(grants, grant, 0);
      if !released[grant] {
        reservedBytes := reservedBytes - required;
      }
      grants := grants[grant := 0];
      released := released[grant := true];
    }

    /** What is reserved is the sum of the live grants, so it is never negative. */
    lemma NeverNegative()
      requires Valid()
      ensures reservedBytes == Total(grants) >= 0
    {
      TotalNotNegative(grants);
    }
  }
}
