/**
 * Seeking the machine to an animation frame. The machine can only run
 * forward: a frame before the current one means starting over from frame 0,
 * and reaching a frame means running one fixed-length update per frame.
 */
module SeekRules {

  /** The frame rate the machine system runs at, in frames per second. */
  const FrameRate: real := 30.0

  /** What a seek does: whether it starts over, and how many updates it then runs. */
  datatype Seek = Seek(reset: bool, updates: nat)

  /** The plan for seeking from the current frame to the target frame. */
  function SeekPlan(current: nat, target: int): (s: Seek)
    ensures s.reset <==> target < current
    ensures s.updates == if target < 0 then 0 else if s.reset then target else target - current
  {
    var start := if target < current then 0 else current;
    Seek(target < current, if target > start then target - start else 0)
  }

  /** The frame the machine is at after the seek. */
  function FrameAfter(current: nat, target: int): (f: nat)
    ensures f == (if target < 0 then 0 else target)
  {
    var s := SeekPlan(current, target);
    (if s.reset then 0 else current) + s.updates
  }

  /** Seeking to the frame the machine is already at does nothing. */
  lemma SeekSameFrame(current: nat)
    ensures SeekPlan(current, current) == Seek(false, 0)
  {
  }

  /** Seeking to a frame twice: the second seek neither starts over nor updates. */
  lemma SeekIdempotent(current: nat, target: int)
    ensures SeekPlan(FrameAfter(current, target), target).updates == 0
    ensures SeekPlan(FrameAfter(current, target), target).reset <==> target < 0
  {
  }

  /**
   * Two forward seeks run exactly the updates of one seek to the later frame,
   * and neither starts over.
   */
  lemma SeekForwardCompose(current: nat, middle: int, target: int)
    requires current <= middle <= target
    ensures !SeekPlan(current, middle).reset && !SeekPlan(middle, target).reset
    ensures SeekPlan(current, middle).updates + SeekPlan(middle, target).updates == SeekPlan(current, target).updates
  {
  }

  /** The length of one machine update: one frame. */
  function FrameTime(): real
  {
    1.0 / FrameRate
  }

  /** The machine time at a frame, in seconds. */
  function MachineTime(frame: nat): (t: real)
    ensures t >= 0.0
    ensures t * FrameRate == frame as real
  {
    frame as real / FrameRate
  }
}
