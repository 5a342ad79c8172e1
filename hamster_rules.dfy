/**
 * The arithmetic of a hamster wheel: how far the wheel turns in one update
 * and which of the four running images is shown for a given rotation.
 */
module HamsterRules {
  import opened Numeric

  const RotationMultiplier: int := 16
  const MaxRotationIndex: int := 12
  const MidRotationIndex: int := 8
  const MinRotationIndex: int := 4

  /** The number of running images; index 0 is the sleeping hamster. */
  const ImageCount: nat := 4

  /** Default revolutions per second of a hamster wheel. */
  const DefaultSpeed: real := 0.6

  /**
   * The rotation after one update: a running hamster turns the wheel by
   * -speed * elapsed, and a rotation whose magnitude exceeds one turn
   * starts over at 0.
   */
  function Advance(rotation: real, speed: real, elapsed: real, running: bool): (r: real)
    ensures Abs(r) <= 1.0
    ensures var moved := if running then rotation - speed * elapsed else rotation;
            (Abs(moved) <= 1.0 ==> r == moved) && (Abs(moved) > 1.0 ==> r == 0.0)
  {
    var moved := if running then rotation + -speed * elapsed else rotation;
    if Abs(moved) > 1.0 then 0.0 else moved
  }

  /** A sleeping hamster leaves a rotation within one turn as it is. */
  lemma SleepingKeepsRotation(rotation: real, speed: real, elapsed: real)
    requires Abs(rotation) <= 1.0
    ensures Advance(rotation, speed, elapsed, false) == rotation
  {
  }

  /** The rotation after n updates with the same speed, elapsed time and state. */
  function AdvanceTimes(rotation: real, speed: real, elapsed: real, running: bool, n: nat): (r: real)
    ensures n == 0 ==> r == rotation
    ensures n > 0 ==> Abs(r) <= 1.0
    ensures n == 1 ==> r == Advance(rotation, speed, elapsed, running)
  {
    if n == 0 then rotation else Advance(AdvanceTimes(rotation, speed, elapsed, running, n - 1), speed, elapsed, running)
  }

  /** However many updates a sleeping hamster gets, a rotation within one turn stays where it is. */
  lemma {:induction false} SleepingStays(rotation: real, speed: real, elapsed: real, n: nat)
    requires Abs(rotation) <= 1.0
    ensures AdvanceTimes(rotation, speed, elapsed, false, n) == rotation
  {
    if n > 0 {
      SleepingStays(rotation, speed, elapsed, n - 1);
    }
  }

  /**
   * Folds a raw index into the image range: take off 12, 8 or 4 when it is
   * above that bound, then show image 2 for 4 or 5.
   */
  function FoldIndex(raw: int): (r: int)
    ensures 1 <= raw <= 17 ==> 1 <= r <= 3
    ensures 1 <= raw <= 16 ==> r == [1, 2, 3, 2][(raw - 1) % 4]
    ensures raw == 17 ==> r == 2
  {
    var folded :=
      if raw > MaxRotationIndex then raw - MaxRotationIndex
      else if raw > MidRotationIndex then raw - MidRotationIndex
      else if raw > MinRotationIndex then raw - MinRotationIndex
      else raw;
    if folded == 4 || folded == 5 then 2 else folded
  }

  /**
   * The raw index: the magnitude of the rotation times 16, plus 1,
   * converted to an integer by truncation (the value is non-negative, so
   * truncation is the floor).
   */
  function RawIndex(rotation: real): (r: int)
    requires Abs(rotation) <= 1.0
    ensures 1 <= r <= 17
    ensures r as real <= Abs(rotation) * 16.0 + 1.0 < r as real + 1.0
  {
    (Abs(rotation) * RotationMultiplier as real + 1.0).Floor
  }

  /** The running image shown after an update with the given rotation. */
  function ImageIndex(rotation: real): (r: int)
    requires Abs(rotation) <= 1.0
    ensures 1 <= r <= 3 && r < ImageCount
  {
    FoldIndex(RawIndex(rotation))
  }

  /**
   * Within a turn the shown image advances every sixteenth of a turn
   * through the cycle 1, 2, 3, 2.
   */
  lemma ImageCycle(rotation: real)
    requires Abs(rotation) < 1.0
    ensures ImageIndex(rotation) == [1, 2, 3, 2][(RawIndex(rotation) - 1) % 4]
  {
    assert RawIndex(rotation) <= 16 by {
      assert Abs(rotation) * 16.0 < 16.0;
    }
  }

  /** A full turn either way shows image 2. */
  lemma FullTurnImage(rotation: real)
    requires Abs(rotation) == 1.0
    ensures ImageIndex(rotation) == 2
  {
    assert RawIndex(rotation) == 17;
  }
}
