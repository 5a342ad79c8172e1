/**
 * The adapter that puts a machine into an animation: the machine runs from a
 * chosen timeline frame on, so each keyframe seeks the machine system to the
 * timeline frame minus that offset.
 */
module CanadianExperience {
  import opened MachineLib
  import opened MachineSystem
  import SeekRules

  /**
   * The frame the machine is sought to for a timeline frame: the frame minus
   * the offset, truncated to an integer when that is not negative, and -1
   * when the offset lies ahead of the timeline frame.
   */
  function MachineFrame(timelineFrame: int, offset: real): (f: int)
    ensures f >= 0 <==> offset <= timelineFrame as real
    ensures f >= 0 ==> f as real <= timelineFrame as real - offset < f as real + 1.0
    ensures f < 0 ==> f == -1
  {
    var machineFrame := timelineFrame as real - offset;
    if machineFrame >= 0.0 then machineFrame.Floor else -1
  }

  /** With a whole-frame offset the machine is exactly that many frames behind the timeline. */
  lemma WholeOffset(timelineFrame: int, offset: int)
    requires offset <= timelineFrame
    ensures MachineFrame(timelineFrame, offset as real) == timelineFrame - offset
  {
    assert (timelineFrame - offset) as real == timelineFrame as real - offset as real;
  }

  /**
   * Before the machine's start frame the machine sits reset at frame 0,
   * whatever frame it was at.
   */
  lemma BeforeStartRewinds(current: nat, timelineFrame: int, offset: real)
    requires timelineFrame as real < offset
    ensures SeekRules.SeekPlan(current, MachineFrame(timelineFrame, offset)) == SeekRules.Seek(true, 0)
    ensures SeekRules.FrameAfter(current, MachineFrame(timelineFrame, offset)) == 0
  {
  }

  class MachineAdapter {
    const system: MachineSystemActual
    /** The timeline frame at which the machine starts running. */
    var frameOffset: real

    constructor (system: MachineSystemActual)
      ensures this.system == system && frameOffset == 0.0
    {
      this.system := system;
      frameOffset := 0.0;
    }

    /** The machine is drawn over the whole actor, so every point hits it. */
    function HitTest(x: int, y: int): (hit: bool)
      ensures hit
    {
      true
    }

    /**
     * Seeks the machine system to the machine frame for the timeline's
     * current frame, after passing on the timeline's frame rate.
     */
    method GetKeyframe(timelineFrame: int, timelineRate: real)
      requires system.Valid()
      modifies system`currentFrame, system`startFrame
      modifies system.machine`world, system.machine`listener, PartObjects(system.machine.components)
      modifies system.machine.parts.hamsters`rotation, system.machine.parts.hamsters`index
      modifies system.machine.parts.sources`rotation, system.machine.parts.sources`speed
      modifies system.machine.parts.pulleys`rotation, system.machine.parts.pulleys`previous
      modifies system.machine.parts.conveyors`speed
      modifies system.machine.world`linearVelocity, system.machine.world`angularVelocity
      modifies system.machine.world`steps, system.machine.world`contactLists
      ensures system.Valid()
      ensures system.currentFrame == SeekRules.FrameAfter(old(system.currentFrame), MachineFrame(timelineFrame, old(frameOffset)))
      ensures timelineFrame as real < old(frameOffset) ==>
                system.currentFrame == 0 && fresh(system.machine.world) && system.machine.world.steps == []
    {
      system.SetFrameRate(timelineRate);
      system.SetMachineFrame(MachineFrame(timelineFrame, frameOffset));
    }

    /** Forwards the machine number to the machine system. */
    method SetMachineNumber(number: int, built: Machine)
      requires Built(built) && 0 <= system.startFrame <= system.currentFrame
      requires number != Machine1Number ==> built.number == 2
      modifies system`machine, system`startFrame, built`world, built`listener, PartObjects(built.components)
      ensures system.machine == built && system.currentFrame == old(system.currentFrame)
      ensures fresh(system.machine.world) && system.machine.world.steps == [] && system.Valid()
      ensures number != Machine1Number ==> GetMachineNumber() == 2
    {
      system.SetMachineNumber(number, built);
    }

    function GetMachineNumber(): int
      reads system, system.machine
    {
      system.GetMachineNumber()
    }

    method SetFrameOffset(offset: real)
      modifies this`frameOffset
      ensures frameOffset == offset
    {
      frameOffset := offset;
    }

    function GetFrameOffset(): real
      reads this
    {
      frameOffset
    }
  }
}
