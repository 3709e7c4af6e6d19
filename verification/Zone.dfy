/**
 A time zone as PEP 495 describes it: a start offset and a sorted sequence of UTC
 transitions.  Instants, wall readings and offsets are whole minutes.  A wall reading is
 a single integer, 1440 per local day; day numbers are proleptic Gregorian ordinals.
 */
module Zone {
  import opened Wrappers

  const MINUTES_PER_DAY := 1440

  datatype Transition = Transition(at: int, offset: int)

  datatype Zone = Zone(initial: int, transitions: seq<Transition>) {

    /** Offset in force after the first `k` transitions. */
    function Offset(k: nat): int
      requires k <= |transitions|
    {
      if k == 0 then initial else transitions[k - 1].offset
    }

    /** Wall reading at which the offset in force before transition `k` runs out. */
    function WallBefore(k: nat): int
      requires k < |transitions|
    {
      transitions[k].at + Offset(k)
    }

    /** Wall reading with which the offset of transition `k` starts. */
    function WallAfter(k: nat): int
      requires k < |transitions|
    {
      transitions[k].at + Offset(k + 1)
    }

    function Low(k: nat): int
      requires k < |transitions|
    {
      if WallBefore(k) < WallAfter(k) then WallBefore(k) else WallAfter(k)
    }

    function High(k: nat): int
      requires k < |transitions|
    {
      if WallBefore(k) < WallAfter(k) then WallAfter(k) else WallBefore(k)
    }

    /** The wall readings disturbed by different transitions do not touch each other. */
    ghost predicate Separated() {
      forall i :: 0 <= i && i + 1 < |transitions| ==> High(i) < Low(i + 1)
    }

    /** No transition skips more than `bound` minutes. */
    ghost predicate GapsWithin(bound: int) {
      forall i :: 0 <= i < |transitions| ==> WallAfter(i) - WallBefore(i) <= bound
    }

    /** No transition repeats more than `bound` minutes. */
    ghost predicate FoldsWithin(bound: int) {
      forall i :: 0 <= i < |transitions| ==> WallBefore(i) - WallAfter(i) <= bound
    }

    /** A gap starts and ends on one local date. */
    ghost predicate GapsKeepDate() {
      forall i :: 0 <= i < |transitions| && WallBefore(i) < WallAfter(i) ==>
                    WallBefore(i) / MINUTES_PER_DAY == WallAfter(i) / MINUTES_PER_DAY
    }

    /** Number of leading transitions, among the first `n`, that happened by `instant`. */
    function UtcIndex(instant: int, n: nat): (k: nat)
      requires n <= |transitions|
      ensures k <= n
      ensures k < n ==> instant < transitions[k].at
      ensures k > 0 ==> transitions[k - 1].at <= instant
    {
      if n == 0 then 0
      else if transitions[n - 1].at <= instant then n
      else UtcIndex(instant, n - 1)
    }

    /** The wall reading of an instant (`astimezone(zone)`). */
    function Wall(instant: int): int {
      instant + Offset(UtcIndex(instant, |transitions|))
    }

    /** The fold-zero lookup: transitions whose later wall reading has been reached. */
    function FoldZeroIndex(local: int, n: nat): (k: nat)
      requires n <= |transitions|
      ensures k <= n
      ensures k < n ==> local < High(k)
      ensures k > 0 ==> High(k - 1) <= local
    {
      if n == 0 then 0
      else if High(n - 1) <= local then n
      else FoldZeroIndex(local, n - 1)
    }

    /** Offset of a wall reading taken with fold zero (`utcoffset()`). */
    function FoldZeroOffset(local: int): int {
      Offset(FoldZeroIndex(local, |transitions|))
    }

    /** The instant that fold zero gives a wall reading (`astimezone(UTC)`). */
    function FoldZeroInstant(local: int): int {
      local - FoldZeroOffset(local)
    }

    /** `_valid_fold(local, zone, 0)`: the instant, if converting back gives `local` again. */
    function ValidFold(local: int): Option<int> {
      var instant := FoldZeroInstant(local);
      if Wall(instant) == local then Some(instant) else None
    }

    /** `instant` is the first one whose wall reading is at least `local`. */
    ghost predicate FirstAtLeast(local: int, instant: int) {
      Wall(instant) >= local && forall v :: v < instant ==> Wall(v) < local
    }
  }

  /** Disturbed wall ranges of separated transitions are ordered like the transitions. */
  lemma {:induction false} RangesOrdered(z: Zone, i: nat, j: nat)
    requires z.Separated() && i < j < |z.transitions|
    ensures z.High(i) < z.Low(j)
    ensures z.transitions[i].at < z.transitions[j].at
    decreases j
  {
    if i + 1 < j {
      RangesOrdered(z, i, j - 1);
    }
    assert z.High(j - 1) < z.Low(j);
  }

  /** Every instant from a transition on reads at least the low end of its range. */
  lemma AfterTransition(z: Zone, k: nat, instant: int)
    requires z.Separated() && k < |z.transitions| && z.transitions[k].at <= instant
    ensures z.Low(k) <= z.Wall(instant)
    ensures z.WallBefore(k) < z.WallAfter(k) ==> z.WallAfter(k) <= z.Wall(instant)
  {
    var j := z.UtcIndex(instant, |z.transitions|);
    if j <= k {
      if j < k { RangesOrdered(z, j, k); }
      assert false;
    }
    assert z.WallAfter(j - 1) <= z.Wall(instant);
    if k < j - 1 { RangesOrdered(z, k, j - 1); }
  }

  /** Every instant before a transition reads less than the high end of its range. */
  lemma BeforeTransition(z: Zone, k: nat, instant: int)
    requires z.Separated() && k < |z.transitions| && instant < z.transitions[k].at
    ensures z.Wall(instant) < z.High(k)
    ensures z.UtcIndex(instant, |z.transitions|) < k ==> k > 0 && z.Wall(instant) < z.High(k - 1)
  {
    var j := z.UtcIndex(instant, |z.transitions|);
    if j > k {
      if k < j - 1 { RangesOrdered(z, k, j - 1); }
      assert false;
    }
    assert z.Wall(instant) < z.WallBefore(j);
    if j < k {
      RangesOrdered(z, j, k);
      if j < k - 1 { RangesOrdered(z, j, k - 1); }
    }
  }

  /**
   Fold zero either inverts the wall clock, at the earliest instant, or the reading lies in
   a gap: then no instant has it and the transition itself is the first instant past it.
   */
  lemma FoldZeroCases(z: Zone, local: int)
    requires z.Separated()
    ensures var k := z.FoldZeroIndex(local, |z.transitions|);
            if k == |z.transitions| || local < z.WallBefore(k)
            then z.ValidFold(local) == Some(z.FoldZeroInstant(local))
                 && z.FirstAtLeast(local, z.FoldZeroInstant(local))
            else z.ValidFold(local) == None && local < z.WallAfter(k)
                 && z.FirstAtLeast(local, z.transitions[k].at)
                 && z.Wall(z.transitions[k].at) == z.WallAfter(k)
  {
    var n := |z.transitions|;
    var k := z.FoldZeroIndex(local, n);
    var u := z.FoldZeroInstant(local);
    if k == n || local < z.WallBefore(k) {
      SegmentIndex(z, k, u);
      forall v | v < u ensures z.Wall(v) < local {
        ReadsBelow(z, k, v, local);
      }
    } else {
      var t := z.transitions[k].at;
      AfterTransition(z, k, u);
      if k + 1 < n { RangesOrdered(z, k, k + 1); }
      SegmentIndex(z, k + 1, t);
      forall v | v < t ensures z.Wall(v) < local {
        ReadsBelow(z, k, v, local);
      }
    }
  }

  /** An instant between two neighbouring transitions uses the offset between them. */
  lemma SegmentIndex(z: Zone, k: nat, instant: int)
    requires z.Separated() && k <= |z.transitions|
    requires k > 0 ==> z.transitions[k - 1].at <= instant
    requires k < |z.transitions| ==> instant < z.transitions[k].at
    ensures z.UtcIndex(instant, |z.transitions|) == k
  {
    var j := z.UtcIndex(instant, |z.transitions|);
    if j < k {
      if j < k - 1 { RangesOrdered(z, j, k - 1); }
      assert false;
    }
    if k < j {
      if k < j - 1 { RangesOrdered(z, k, j - 1); }
      assert false;
    }
  }

  /** Instants before the end of segment `k` read below `local` if they come early enough. */
  lemma ReadsBelow(z: Zone, k: nat, v: int, local: int)
    requires z.Separated() && k <= |z.transitions|
    requires k > 0 ==> z.High(k - 1) <= local
    requires v + z.Offset(k) < local
             || (k < |z.transitions| && v < z.transitions[k].at && z.WallBefore(k) <= local)
    requires k < |z.transitions| ==> v < z.transitions[k].at
    ensures z.Wall(v) < local
  {
    if k > 0 && v < z.transitions[k - 1].at {
      BeforeTransition(z, k - 1, v);
    } else {
      SegmentIndex(z, k, v);
    }
  }

  /** A reading is invalid exactly when no instant has it; a valid one gets its earliest instant. */
  lemma ValidFoldIsEarliestPreimage(z: Zone, local: int)
    requires z.Separated()
    ensures z.ValidFold(local).None? ==> forall u :: z.Wall(u) != local
    ensures z.ValidFold(local).Some? ==>
              z.Wall(z.ValidFold(local).value) == local
              && forall v :: z.Wall(v) == local ==> z.ValidFold(local).value <= v
  {
    FoldZeroCases(z, local);
    if z.ValidFold(local).None? {
      var k := z.FoldZeroIndex(local, |z.transitions|);
      forall u ensures z.Wall(u) != local {
        if z.transitions[k].at <= u {
          AfterTransition(z, k, u);
        }
      }
    }
  }

  /** The first instant at or past a reading is unique, and later readings come later. */
  lemma FirstAtLeastMonotone(z: Zone, local1: int, u1: int, local2: int, u2: int)
    requires local1 <= local2
    requires z.FirstAtLeast(local1, u1) && z.FirstAtLeast(local2, u2)
    ensures u1 <= u2
    ensures local1 == local2 ==> u1 == u2
  {
    assert u2 < u1 ==> z.Wall(u2) < local1;
    assert u1 < u2 ==> z.Wall(u1) < local2;
  }
}
