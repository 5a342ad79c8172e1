/**
 * The machine system: owns the current machine and drives it frame by frame.
 * Seeking to an earlier frame resets the machine and replays from frame 0;
 * seeking forward runs one update of a frame's length per frame.
 */
module MachineSystem {
  import opened Physics
  import opened MachineLib
  import SeekRules

  /** The number of the first machine layout. */
  const Machine1Number: int := 1

  /** The world step one frame's update takes. */
  function FrameStep(): TimeStep
  {
    TimeStep(SeekRules.FrameTime(), VelocityIterations, PositionIterations)
  }

  /**
   * What a layout factory hands over: a machine whose components are
   * distinct objects, wired into a ranked drive graph, and keeping their own
   * invariants.
   */
  ghost predicate Built(m: Machine)
    reads m, m.parts.sources`sinks, m.parts.pulleys`rocking, m.parts.pulleys`increasing
    reads m.parts.goals`score, m.parts.goals`events
    reads m.parts.hamsters`index, m.parts.hamsters`running, m.parts.hamsters`rotation
  {
    m.Valid() && Wired(m.parts) && HamstersValid(m.parts) && PulleysInBand(m.parts) && GoalsValid(m.parts)
    && Distinct(m.components)
  }

  /** The machine system is never the object of a component. */
  lemma SystemIsNotPart(s: MachineSystemActual, cs: seq<Component>)
    ensures s !in PartObjects(cs)
  {
    if s in PartObjects(cs) {
      var i :| 0 <= i < |cs| && PartObject(cs[i]) == s;
      match cs[i] {
        case HamsterPart(h) =>
        case PulleyPart(p) =>
        case ConveyorPart(v) =>
        case GoalPart(g) =>
        case BodyPart(b) =>
      }
    }
  }

  class MachineSystemActual {
    var machine: Machine
    /** The frame rate; nothing changes it. */
    const frameRate: real := SeekRules.FrameRate
    var currentFrame: int
    /** The frame at which the current machine was last reset. */
    ghost var startFrame: int

    /**
     * The machine is ready to run, and its world has taken one frame step
     * for every frame since its last reset.
     */
    ghost predicate Valid()
      reads this, machine, machine.world`steps
      reads machine.parts.sources`sinks, machine.parts.conveyors`world, machine.parts.bodies`world
      reads machine.parts.hamsters`world, machine.parts.goals`world
      reads machine.parts.pulleys`rocking, machine.parts.pulleys`increasing
      reads machine.parts.goals`score, machine.parts.goals`events
      reads machine.parts.hamsters`index, machine.parts.hamsters`running, machine.parts.hamsters`rotation
    {
      machine.Ready() && Distinct(machine.components)
      && 0 <= startFrame <= currentFrame
      && machine.world.steps == Repeat(FrameStep(), currentFrame - startFrame)
    }

    /** Builds machine 1 (the layout the factory hands over) and resets it at frame 0. */
    constructor (built: Machine)
      requires Built(built)
      modifies built`world, built`listener, PartObjects(built.components)
      ensures machine == built && currentFrame == 0 && Valid()
      ensures fresh(machine.world) && machine.world.steps == []
    {
      machine := built;
      currentFrame := 0;
      startFrame := 0;
      new;
      SetMachineNumber(Machine1Number, built);
    }

    /**
     * Makes the machine the layout for the given number (1 for layout 1,
     * anything else for layout 2) and resets it. The frame counter is left
     * as it was, so the fresh machine counts as having run since this frame.
     */
    method SetMachineNumber(number: int, built: Machine)
      requires Built(built) && 0 <= startFrame <= currentFrame
      requires number != Machine1Number ==> built.number == 2
      modifies this`machine, this`startFrame, built`world, built`listener, PartObjects(built.components)
      ensures machine == built && currentFrame == old(currentFrame) && startFrame == currentFrame
      ensures fresh(machine.world) && machine.world.steps == []
      ensures number != Machine1Number ==> GetMachineNumber() == 2
      ensures Valid()
    {
      SystemIsNotPart(this, built.components);
      machine := built;
      machine.Reset();
      startFrame := currentFrame;
    }

    /** The number of the current machine. */
    function GetMachineNumber(): (n: int)
      reads this, machine
      ensures n == machine.number
    {
      machine.GetMachine()
    }

    /** The machine time of the current frame, in seconds. */
    function GetMachineTime(): (t: real)
      reads this
      ensures t * SeekRules.FrameRate == currentFrame as real
      ensures currentFrame >= 0 ==> t == SeekRules.MachineTime(currentFrame)
    {
      currentFrame as real / frameRate
    }

    /** Setting the frame rate does nothing: this method changes no state. */
    method SetFrameRate(rate: real)
      ensures old(Valid()) ==> Valid()
    {
    }

    /** Resets the machine and the frame counter to frame 0. */
    method Rewind()
      requires Valid()
      modifies this`currentFrame, this`startFrame, machine`world, machine`listener, PartObjects(machine.components)
      ensures Valid() && currentFrame == 0 && startFrame == 0
      ensures fresh(machine.world) && machine.world.steps == []
    {
      SystemIsNotPart(this, machine.components);
      currentFrame := 0;
      startFrame := 0;
      machine.Reset();
    }

    /** Updates the machine by one frame's time and counts the frame. */
    method StepFrame()
      requires Valid()
      modifies this`currentFrame
      modifies machine.parts.hamsters`rotation, machine.parts.hamsters`index
      modifies machine.parts.sources`rotation, machine.parts.sources`speed
      modifies machine.parts.pulleys`rotation, machine.parts.pulleys`previous, machine.parts.conveyors`speed
      modifies machine.world`linearVelocity, machine.world`angularVelocity, machine.world`steps, machine.world`contactLists
      ensures Valid() && currentFrame == old(currentFrame) + 1
      ensures machine.world.steps == old(machine.world.steps) + [FrameStep()]
    {
      machine.Update(1.0 / frameRate);
      RepeatAppend(FrameStep(), currentFrame - startFrame, 1);
      currentFrame := currentFrame + 1;
    }

    /** Updates the machine once per frame until the frame counter reaches the frame. */
    method RunTo(frame: int)
      requires Valid()
      modifies this`currentFrame
      modifies machine.parts.hamsters`rotation, machine.parts.hamsters`index
      modifies machine.parts.sources`rotation, machine.parts.sources`speed
      modifies machine.parts.pulleys`rotation, machine.parts.pulleys`previous, machine.parts.conveyors`speed
      modifies machine.world`linearVelocity, machine.world`angularVelocity, machine.world`steps, machine.world`contactLists
      ensures Valid()
      ensures currentFrame == if frame < old(currentFrame) then old(currentFrame) else frame
      ensures machine.world.steps == old(machine.world.steps) + Repeat(FrameStep(), currentFrame - old(currentFrame))
    {
      ghost var first := currentFrame;
      while currentFrame < frame
        invariant Valid()
        invariant first <= currentFrame && (first <= frame ==> currentFrame <= frame)
        invariant frame < first ==> currentFrame == first
      {
        StepFrame();
      }
      RepeatAppend(FrameStep(), first - startFrame, currentFrame - first);
    }

    /**
     * Seeks the machine to the frame. A frame before the current one resets
     * the machine and starts over from frame 0; then the machine is updated
     * once per frame until the frame is reached.
     */
    method SetMachineFrame(frame: int)
      requires Valid()
      modifies this`currentFrame, this`startFrame
      modifies machine`world, machine`listener, PartObjects(machine.components)
      modifies machine.parts.hamsters`rotation, machine.parts.hamsters`index
      modifies machine.parts.sources`rotation, machine.parts.sources`speed
      modifies machine.parts.pulleys`rotation, machine.parts.pulleys`previous, machine.parts.conveyors`speed
      modifies machine.world`linearVelocity, machine.world`angularVelocity, machine.world`steps, machine.world`contactLists
      ensures Valid()
      ensures currentFrame == SeekRules.FrameAfter(old(currentFrame), frame)
      ensures SeekRules.SeekPlan(old(currentFrame), frame).reset ==>
                fresh(machine.world) && startFrame == 0
                && machine.world.steps == Repeat(FrameStep(), SeekRules.SeekPlan(old(currentFrame), frame).updates)
      ensures !SeekRules.SeekPlan(old(currentFrame), frame).reset ==>
                machine.world == old(machine.world) && startFrame == old(startFrame)
                && machine.world.steps == old(machine.world.steps) + Repeat(FrameStep(), SeekRules.SeekPlan(old(currentFrame), frame).updates)
    {
      if frame < currentFrame {
        Rewind();
      }
      RunTo(frame);
    }
  }

  // The drive chain of the second layout, as a built machine

  /**
   * The parts of the drive chain of the second machine layout, wired as its
   * factory wires them: an initially running hamster at speed -1 feeds a
   * pulley of radius 10, which drives a pulley of radius 17, which feeds the
   * conveyor.
   */
  method NewDriveChain() returns (h: Hamster, v: Conveyor, p1: Pulley, p2: Pulley)
    ensures fresh(h) && fresh(h.source) && fresh(h.base) && fresh(v) && fresh(v.base)
    ensures fresh(p1) && fresh(p1.source) && fresh(p1.base) && fresh(p2) && fresh(p2.source) && fresh(p2.base)
    ensures h.running && h.speed == -1.0 && h.Valid() && p1.RockingInBand() && p2.RockingInBand()
    ensures h.source.sinks == [PulleySink(p1)] && p1.source.sinks == [PulleySink(p2)]
    ensures p2.source.sinks == [ConveyorSink(v)] && p2.driver == p1
    ensures p1.radius == 10.0 && p2.radius == 17.0 && p1 != p2
    ensures p2.source.rank < p1.source.rank < h.source.rank
  {
    h := new Hamster(2);
    h.SetInitiallyRunning(true);
    h.SetSpeed(-1.0);
    v := new Conveyor();
    p1 := new Pulley(10.0, 1);
    h.source.AddSink(PulleySink(p1));
    p2 := new Pulley(17.0, 0);
    p1.Drive(p2);
    p2.source.AddSink(ConveyorSink(v));
  }

  /**
   * The drive chain of the second machine layout, added to a machine in the
   * factory's order: hamster, conveyor, then the two pulleys. The result is
   * a built machine.
   */
  method BuildDriveChain() returns (m: Machine)
    ensures Built(m) && |m.components| == 4
    ensures m.components[0].HamsterPart? && m.components[0].hamster.running
    ensures fresh(m) && fresh(PartObjects(m.components))
    ensures fresh(m.parts.sources) && fresh(m.parts.hamsters) && fresh(m.parts.pulleys) && fresh(m.parts.conveyors)
  {
    var h, v, p1, p2 := NewDriveChain();
    m := NewChainMachine(h, v, p1, p2);
    ChainWired(h, v, p1, p2);
    ChainDistinct(h, v, p1, p2);
  }

  /** Machine 2 holding the drive chain's parts, added in the factory's order. */
  method NewChainMachine(h: Hamster, v: Conveyor, p1: Pulley, p2: Pulley) returns (m: Machine)
    modifies h.base`machine, v.base`machine, p1.base`machine, p2.base`machine
    ensures fresh(m) && m.components == [HamsterPart(h), ConveyorPart(v), PulleyPart(p1), PulleyPart(p2)]
    ensures m.parts == ChainUniverse(h, v, p1, p2) && m.Valid()
  {
    m := new Machine(2);
    m.AddComponent(HamsterPart(h));
    assert m.parts == Universe({h.source}, {}, {}, {}, {h}, {});
    m.AddComponent(ConveyorPart(v));
    assert m.parts == Universe({h.source}, {}, {v}, {}, {h}, {});
    m.AddComponent(PulleyPart(p1));
    assert m.parts == Universe({h.source, p1.source}, {p1}, {v}, {}, {h}, {});
    m.AddComponent(PulleyPart(p2));
  }

  /** The universe of the drive chain: three sources, two pulleys, a conveyor and a hamster. */
  function ChainUniverse(h: Hamster, v: Conveyor, p1: Pulley, p2: Pulley): Universe
  {
    Universe({h.source, p1.source, p2.source}, {p1, p2}, {v}, {}, {h}, {})
  }

  /** The drive chain is wired: every sink is in its universe, and each pulley ranks below its feeder. */
  lemma ChainWired(h: Hamster, v: Conveyor, p1: Pulley, p2: Pulley)
    requires h.source.sinks == [PulleySink(p1)] && p1.source.sinks == [PulleySink(p2)]
    requires p2.source.sinks == [ConveyorSink(v)]
    requires p2.source.rank < p1.source.rank < h.source.rank
    requires h.Valid() && p1.RockingInBand() && p2.RockingInBand()
    ensures Wired(ChainUniverse(h, v, p1, p2))
    ensures HamstersValid(ChainUniverse(h, v, p1, p2)) && PulleysInBand(ChainUniverse(h, v, p1, p2))
    ensures GoalsValid(ChainUniverse(h, v, p1, p2))
  {
  }

  /** The drive chain's four components are distinct objects. */
  lemma ChainDistinct(h: Hamster, v: Conveyor, p1: Pulley, p2: Pulley)
    requires p1 != p2
    ensures Distinct([HamsterPart(h), ConveyorPart(v), PulleyPart(p1), PulleyPart(p2)])
    ensures PartObjects([HamsterPart(h), ConveyorPart(v), PulleyPart(p1), PulleyPart(p2)]) == {h, v, p1, p2}
  {
    var cs := [HamsterPart(h), ConveyorPart(v), PulleyPart(p1), PulleyPart(p2)];
    assert PartObject(cs[0]) == h && PartObject(cs[1]) == v && PartObject(cs[2]) == p1 && PartObject(cs[3]) == p2;
  }

  /** The machine system over the drive chain, at frame 0 with a fresh world. */
  method StartDriveChain() returns (s: MachineSystemActual)
    ensures fresh(s) && fresh(s.machine) && fresh(s.machine.world) && fresh(PartObjects(s.machine.components))
    ensures fresh(s.machine.parts.sources) && fresh(s.machine.parts.hamsters)
    ensures fresh(s.machine.parts.pulleys) && fresh(s.machine.parts.conveyors)
    ensures s.Valid() && s.currentFrame == 0
  {
    var m := BuildDriveChain();
    MachineIsNotPart(m, m.components);
    ghost var u, cs := m.parts, m.components;
    s := new MachineSystemActual(m);
    assert m.parts == u && m.components == cs;
  }

  /**
   * Scrubbing the drive chain: forward to frame 5 continues from frame 0,
   * and back to frame 2 replays from a fresh world with two frame steps.
   */
  method ScrubDriveChain() returns (s: MachineSystemActual)
    ensures s.currentFrame == 2 && s.machine.world.steps == Repeat(FrameStep(), 2)
  {
    s := StartDriveChain();
    var m := s.machine;
    SystemIsNotPart(s, m.components);
    MachineIsNotPart(m, m.components);
    ghost var w, u, cs := m.world, m.parts, m.components;
    s.SetMachineFrame(5);
    assert s.currentFrame == 5 && s.machine == m && m.world == w;
    assert m.parts == u && m.components == cs;
    s.SetMachineFrame(2);
  }
}
