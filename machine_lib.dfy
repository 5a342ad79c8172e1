/**
 * The machine library: components, the rotation source/sink graph that
 * carries rotation from hamsters through pulleys to conveyors and bodies,
 * the contact-routing table, and the machine that owns them.
 *
 * Components hold pointers to their machine and sources hold their sinks,
 * so all classes live in this one module; the arithmetic each component
 * performs lives in the rule modules it imports.
 */
module MachineLib {
  import opened Physics
  import PulleyRules
  import HamsterRules
  import GoalRules
  import ConveyorRules
  import Numeric

  // ---------------------------------------------------------------------
  // Components and sinks

  /** A part of a machine; each variant is one concrete component class. */
  datatype Component =
    | HamsterPart(hamster: Hamster)
    | PulleyPart(pulley: Pulley)
    | ConveyorPart(conveyor: Conveyor)
    | GoalPart(goal: Goal)
    | BodyPart(body: Body)

  /** The part of every component that the component base class holds: its machine. */
  class ComponentBase {
    var machine: Machine?

    constructor ()
      ensures machine == null
    {
      machine := null;
    }

    method SetMachine(m: Machine)
      modifies this`machine
      ensures machine == m
    {
      machine := m;
    }
  }

  function Base(c: Component): ComponentBase
  {
    match c
    case HamsterPart(h) => h.base
    case PulleyPart(p) => p.base
    case ConveyorPart(v) => v.base
    case GoalPart(g) => g.base
    case BodyPart(b) => b.base
  }

  /** The machine a component was added to, or null before it was added. */
  function MachineOf(c: Component): Machine?
    reads Base(c)
  {
    Base(c).machine
  }

  /** Something a rotation source can drive. */
  datatype Sink =
    | PulleySink(pulley: Pulley)
    | ConveyorSink(conveyor: Conveyor)
    | BodySink(body: Body)

  /** The rotation source of a pulley sink, as a set (empty for the other sinks). */
  function SinkSources(k: Sink): set<RotationSource>
  {
    if k.PulleySink? then {k.pulley.source} else {}
  }

  function SinkConveyors(k: Sink): set<Conveyor>
  {
    if k.ConveyorSink? then {k.conveyor} else {}
  }

  function SinkBodies(k: Sink): set<Body>
  {
    if k.BodySink? then {k.body} else {}
  }

  function SinkPulleys(k: Sink): set<Pulley>
  {
    if k.PulleySink? then {k.pulley} else {}
  }

  /**
   * What a Rotate(rotation, speed) call leaves in sink k of world w: a
   * pulley's own source holds the pair, a conveyor runs at the speed and
   * every body touching its belt moves at the belt velocity, and a body
   * spins at the speed.
   */
  ghost predicate Holds(k: Sink, rotation: real, speed: real, w: World)
    reads SinkSources(k)`rotation, SinkSources(k)`speed, SinkConveyors(k)`speed, SinkConveyors(k)`handle
    reads SinkBodies(k)`handle, w`contactLists, w`linearVelocity, w`angularVelocity
  {
    match k
    case PulleySink(p) => p.source.rotation == rotation && p.source.speed == speed
    case ConveyorSink(c) =>
      c.speed == speed && Moving(w.ContactList(c.handle), w.linearVelocity, speed)
    case BodySink(b) => b.handle in w.angularVelocity && w.angularVelocity[b.handle] == speed
  }

  /**
   * What a Rotate(rotation, speed) call leaves in sink k, given the gear
   * states the pulleys had before: Holds, and for a pulley the gear step on
   * the rotation from its earlier gear state.
   */
  ghost predicate Reached(k: Sink, gears: map<Pulley, PulleyRules.GearState>, rotation: real, speed: real, w: World)
    reads SinkSources(k)`rotation, SinkSources(k)`speed, SinkConveyors(k)`speed, SinkConveyors(k)`handle
    reads SinkBodies(k)`handle, SinkPulleys(k)`rotation, SinkPulleys(k)`previous, SinkPulleys(k)`driver
    reads w`contactLists, w`linearVelocity, w`angularVelocity
  {
    Holds(k, rotation, speed, w) && (k.PulleySink? && k.pulley in gears ==> k.pulley.GearedFrom(gears[k.pulley], rotation))
  }

  /** Every body touching along edges has the belt velocity of the speed in table m. */
  ghost predicate Moving(edges: seq<ContactEdge>, m: map<BodyId, Vec2>, speed: real)
  {
    forall b :: ConveyorRules.Touched(edges, b) ==> b in m && m[b] == ConveyorRules.BeltVelocity(speed)
  }

  /** Map m' is m with entries added or overwritten, each with the value v. */
  ghost predicate SetsTo<K, V>(m: map<K, V>, m': map<K, V>, v: V)
  {
    m.Keys <= m'.Keys && forall b :: b in m' ==> m'[b] == v || (b in m && m'[b] == m[b])
  }

  /** Bodies that move at the belt velocity keep it when only that velocity is written. */
  lemma MovingKept(edges: seq<ContactEdge>, m: map<BodyId, Vec2>, m': map<BodyId, Vec2>, speed: real)
    requires Moving(edges, m, speed) && SetsTo(m, m', ConveyorRules.BeltVelocity(speed))
    ensures Moving(edges, m', speed)
  { }

  // ---------------------------------------------------------------------
  // The drive graph

  /** The objects of one machine that rotation propagation reaches. */
  datatype Universe = Universe(
    sources: set<RotationSource>,
    pulleys: set<Pulley>,
    conveyors: set<Conveyor>,
    bodies: set<Body>,
    hamsters: set<Hamster>,
    goals: set<Goal>)

  ghost predicate SinkIn(u: Universe, k: Sink)
  {
    match k
    case PulleySink(p) => p in u.pulleys
    case ConveyorSink(c) => c in u.conveyors
    case BodySink(b) => b in u.bodies
  }

  /** The sources strictly below rank k. */
  ghost function SourcesBelow(u: Universe, k: nat): set<RotationSource>
  {
    set s | s in u.sources && s.rank < k
  }

  /** The pulleys whose own source is strictly below rank k. */
  ghost function PulleysBelow(u: Universe, k: nat): set<Pulley>
  {
    set p | p in u.pulleys && p.source.rank < k
  }

  /**
   * The drive graph is closed and ranked: every sink of a source is in the
   * universe, and a pulley sink's own source has a smaller rank than the
   * source driving it, so propagation reaches every sink and terminates.
   */
  ghost predicate Wired(u: Universe)
    reads u.sources`sinks
  {
    (forall p :: p in u.pulleys ==> p.source in u.sources)
    && (forall h :: h in u.hamsters ==> h.source in u.sources)
    && forall s, i :: s in u.sources && 0 <= i < |s.sinks| ==>
         SinkIn(u, s.sinks[i]) && (s.sinks[i].PulleySink? ==> s.sinks[i].pulley.source.rank < s.rank)
  }

  /** The sinks of every source of the machine: the drive graph as a value. */
  ghost function Graph(u: Universe): map<RotationSource, seq<Sink>>
    reads u.sources`sinks
  {
    map t | t in u.sources :: t.sinks
  }

  /**
   * The sinks a Rotate call on sink k reaches in drive graph g, when made by
   * a source of rank bound: k itself and, for a pulley, whatever the sinks
   * of its own source reach in turn.
   */
  ghost function Downstream(g: map<RotationSource, seq<Sink>>, k: Sink, bound: nat): set<Sink>
    decreases bound
  {
    if k.PulleySink? && k.pulley.source in g && k.pulley.source.rank < bound then
      var t := k.pulley.source;
      {k} + set i, k2 | 0 <= i < |g[t]| && k2 in Downstream(g, g[t][i], t.rank) :: k2
    else
      {k}
  }

  /**
   * In a wired graph everything a source's sinks reach is in the universe,
   * and every pulley reached ranks below the source.
   */
  lemma {:induction false} DownstreamIn(u: Universe, k: Sink, bound: nat, k2: Sink)
    requires Wired(u) && SinkIn(u, k) && (k.PulleySink? ==> k.pulley.source.rank < bound)
    requires k2 in Downstream(Graph(u), k, bound)
    ensures SinkIn(u, k2) && (k2.PulleySink? ==> k2.pulley.source.rank < bound)
    decreases bound
  {
    if k2 != k {
      var t := k.pulley.source;
      var i :| 0 <= i < |t.sinks| && k2 in Downstream(Graph(u), t.sinks[i], t.rank);
      DownstreamIn(u, t.sinks[i], t.rank, k2);
    }
  }

  /** DownstreamIn for every sink of source t. */
  lemma SourceDownstreamIn(u: Universe, t: RotationSource)
    requires Wired(u) && t in u.sources
    ensures forall i, k2 :: 0 <= i < |t.sinks| && k2 in Downstream(Graph(u), t.sinks[i], t.rank) ==>
              SinkIn(u, k2) && (k2.PulleySink? ==> k2.pulley.source.rank < t.rank)
  {
    forall i, k2 | 0 <= i < |t.sinks| && k2 in Downstream(Graph(u), t.sinks[i], t.rank)
      ensures SinkIn(u, k2) && (k2.PulleySink? ==> k2.pulley.source.rank < t.rank)
    {
      DownstreamIn(u, t.sinks[i], t.rank, k2);
    }
  }

  /**
   * What reaching the sinks of source t carries two pulleys deep. When t
   * drives pulley p1, p1 drives p2 and p2 drives conveyor c, then the
   * conveyor runs at t's speed, p2's source holds t's pair, and p1, if it
   * has no driver of its own, takes t's rotation.
   */
  lemma DriveChain(u: Universe, t: RotationSource, p1: Pulley, p2: Pulley, c: Conveyor,
                   gears: map<Pulley, PulleyRules.GearState>, w: World)
    requires Wired(u) && t in u.sources
    requires PulleySink(p1) in t.sinks && PulleySink(p2) in p1.source.sinks && ConveyorSink(c) in p2.source.sinks
    requires forall i, k2 :: 0 <= i < |t.sinks| && k2 in Downstream(Graph(u), t.sinks[i], t.rank) ==>
               Reached(k2, gears, t.rotation, t.speed, w)
    ensures c.speed == t.speed && p2.source.rotation == t.rotation && p2.source.speed == t.speed
    ensures p1 in gears && p1.driver == null ==> p1.rotation == t.rotation
  {
    var g := Graph(u);
    var i :| 0 <= i < |t.sinks| && t.sinks[i] == PulleySink(p1);
    var j :| 0 <= j < |p1.source.sinks| && p1.source.sinks[j] == PulleySink(p2);
    var k :| 0 <= k < |p2.source.sinks| && p2.source.sinks[k] == ConveyorSink(c);
    assert p1.source in u.sources && p2.source in u.sources;
    assert ConveyorSink(c) in Downstream(g, p2.source.sinks[k], p2.source.rank);
    assert ConveyorSink(c) in Downstream(g, p1.source.sinks[j], p1.source.rank);
    assert ConveyorSink(c) in Downstream(g, t.sinks[i], t.rank);
    assert Reached(ConveyorSink(c), gears, t.rotation, t.speed, w);
    assert PulleySink(p2) in Downstream(g, t.sinks[i], t.rank);
    assert Reached(PulleySink(p2), gears, t.rotation, t.speed, w);
    assert Reached(PulleySink(p1), gears, t.rotation, t.speed, w);
  }

  /** Every conveyor, body, hamster and goal has its physics bodies in world w. */
  ghost predicate Installed(u: Universe, w: World)
    reads u.conveyors`world, u.bodies`world, u.hamsters`world, u.goals`world
  {
    (forall c :: c in u.conveyors ==> c.world == w)
    && (forall b :: b in u.bodies ==> b.world == w)
    && (forall h :: h in u.hamsters ==> h.world == w)
    && (forall g :: g in u.goals ==> g.world == w)
  }

  /** The gear state of every pulley of the machine. */
  ghost function Gears(u: Universe): map<Pulley, PulleyRules.GearState>
    reads u.pulleys`rotation, u.pulleys`previous
  {
    map p | p in u.pulleys :: PulleyRules.GearState(p.rotation, p.previous)
  }

  /**
   * Compared with the gear states gears, every pulley below the rank keeps
   * its gear state or has taken the gear step on r.
   */
  ghost predicate GearsKept(u: Universe, rank: nat, gears: map<Pulley, PulleyRules.GearState>, r: real)
    reads PulleysBelow(u, rank)`rotation, PulleysBelow(u, rank)`previous, PulleysBelow(u, rank)`driver
  {
    forall p :: p in PulleysBelow(u, rank) ==>
      p in gears && (PulleyRules.GearState(p.rotation, p.previous) == gears[p] || p.GearedFrom(gears[p], r))
  }

  /**
   * Passing the pair (r, s) below the given rank writes nothing but that
   * pair: each source below the rank keeps its pair or holds (r, s), each
   * pulley below it keeps its gear state or has taken the gear step on r
   * from its state in gears, each conveyor keeps its speed or runs at s, and
   * each velocity entry keeps its value or takes the one speed s gives.
   */
  twostate predicate Spread(u: Universe, rank: nat, w: World, gears: map<Pulley, PulleyRules.GearState>, r: real, s: real)
    reads SourcesBelow(u, rank)`rotation, SourcesBelow(u, rank)`speed, u.conveyors`speed
    reads PulleysBelow(u, rank)`rotation, PulleysBelow(u, rank)`previous, PulleysBelow(u, rank)`driver
    reads w`linearVelocity, w`angularVelocity
  {
    (forall t :: t in SourcesBelow(u, rank) ==>
       (t.rotation == old(t.rotation) && t.speed == old(t.speed)) || (t.rotation == r && t.speed == s))
    && (forall p :: p in PulleysBelow(u, rank) ==>
          (p.rotation == old(p.rotation) && p.previous == old(p.previous)) || (p in gears && p.GearedFrom(gears[p], r)))
    && (forall c :: c in u.conveyors ==> c.speed == old(c.speed) || c.speed == s)
    && SetsTo(old(w.linearVelocity), w.linearVelocity, ConveyorRules.BeltVelocity(s))
    && SetsTo(old(w.angularVelocity), w.angularVelocity, s)
  }

  /**
   * One Rotate(rotation, speed) call on a sink k of a source of the given
   * rank; each kind of sink acts as its own Rotate states, so every sink it
   * reaches is Reached with the same pair. Gear states that are the gear
   * step on the rotation from gears, or equal to gears, stay so (GearsKept):
   * a pulley reached a second time with the same rotation steps again, and
   * the repeated step leaves the state one step gives (GearStepTwice).
   */
  method Deliver(k: Sink, rotation: real, speed: real, ghost rank: nat, ghost gears: map<Pulley, PulleyRules.GearState>, ghost u: Universe, ghost w: World)
    requires SinkIn(u, k) && (k.PulleySink? ==> k.pulley.source.rank < rank) && Wired(u) && Installed(u, w)
    requires GearsKept(u, rank, gears, rotation)
    modifies SourcesBelow(u, rank)`rotation, SourcesBelow(u, rank)`speed
    modifies PulleysBelow(u, rank)`rotation, PulleysBelow(u, rank)`previous
    modifies u.conveyors`speed, w`linearVelocity, w`angularVelocity
    decreases rank, 0
    ensures Graph(u) == old(Graph(u))
    ensures forall k2 :: k2 in Downstream(Graph(u), k, rank) ==> Reached(k2, gears, rotation, speed, w)
    ensures GearsKept(u, rank, gears, rotation)
    ensures Spread(u, rank, w, gears, rotation, speed)
    ensures k.ConveyorSink? ==>
              w.linearVelocity == ConveyorRules.Transport(speed, w.ContactList(k.conveyor.handle), old(w.linearVelocity))
  {
    match k {
      case PulleySink(p) => p.Rotate(rotation, speed, gears, u, w);
      case ConveyorSink(c) => c.Rotate(rotation, speed, w);
      case BodySink(b) => b.Rotate(rotation, speed, w);
    }
  }

  // ---------------------------------------------------------------------
  // Rotation sources

  /**
   * A source of rotation owned by a hamster or a pulley. The rank is a
   * proof device: it orders sources along the drive graph.
   */
  class RotationSource {
    ghost const rank: nat
    var rotation: real
    var speed: real
    var sinks: seq<Sink>

    /** Rotation and speed are left unset until the first SetRotation. */
    constructor (ghost rank: nat)
      ensures this.rank == rank && sinks == []
    {
      this.rank := rank;
      sinks := [];
    }

    method AddSink(sink: Sink)
      modifies this`sinks
      ensures sinks == old(sinks) + [sink]
    {
      sinks := sinks + [sink];
    }

    method SetRotation(rotation: real, speed: real)
      modifies this`rotation, this`speed
      ensures this.rotation == rotation && this.speed == speed
    {
      this.rotation := rotation;
      this.speed := speed;
    }

    /**
     * Passes the current rotation and speed to every sink, in the order the
     * sinks were added. Every sink reached, directly or through pulleys, is
     * Reached with the pair afterwards: the sinks called earlier keep it,
     * because propagation writes nothing but the pair.
     */
    method UpdateSinks(ghost gears: map<Pulley, PulleyRules.GearState>, ghost u: Universe, ghost w: World)
      requires this in u.sources && Wired(u) && Installed(u, w) && GearsKept(u, rank, gears, rotation)
      modifies SourcesBelow(u, rank)`rotation, SourcesBelow(u, rank)`speed
      modifies PulleysBelow(u, rank)`rotation, PulleysBelow(u, rank)`previous
      modifies u.conveyors`speed, w`linearVelocity, w`angularVelocity
      decreases rank, 2
      ensures Graph(u) == old(Graph(u))
      ensures rotation == old(rotation) && speed == old(speed)
      ensures forall i, k2 :: 0 <= i < |sinks| && k2 in Downstream(Graph(u), sinks[i], rank) ==>
                Reached(k2, gears, rotation, speed, w)
      ensures GearsKept(u, rank, gears, rotation)
      ensures Spread(u, rank, w, gears, rotation, speed)
    {
      var i := 0;
      while i < |sinks|
        invariant 0 <= i <= |sinks|
        invariant rotation == old(rotation) && speed == old(speed)
        invariant Graph(u) == old(Graph(u))
        invariant forall j, k2 :: 0 <= j < i && k2 in Downstream(Graph(u), sinks[j], rank) ==>
                    Reached(k2, gears, rotation, speed, w)
        invariant GearsKept(u, rank, gears, rotation)
        invariant Spread(u, rank, w, gears, rotation, speed)
      {
        DeliverAt(i, gears, u, w);
        i := i + 1;
      }
    }

    /**
     * Passes the pair to sink i. What the sinks before it reached with the
     * pair, from the gear states gears, is still Reached; so is every sink
     * that sink i reaches.
     */
    method DeliverAt(i: nat, ghost gears: map<Pulley, PulleyRules.GearState>, ghost u: Universe, ghost w: World)
      requires this in u.sources && Wired(u) && Installed(u, w) && i < |sinks|
      requires forall j, k2 :: 0 <= j < i && k2 in Downstream(Graph(u), sinks[j], rank) ==>
                 Reached(k2, gears, rotation, speed, w)
      requires GearsKept(u, rank, gears, rotation)
      modifies SourcesBelow(u, rank)`rotation, SourcesBelow(u, rank)`speed
      modifies PulleysBelow(u, rank)`rotation, PulleysBelow(u, rank)`previous
      modifies u.conveyors`speed, w`linearVelocity, w`angularVelocity
      decreases rank, 1
      ensures Graph(u) == old(Graph(u))
      ensures rotation == old(rotation) && speed == old(speed)
      ensures forall j, k2 :: 0 <= j < i + 1 && k2 in Downstream(Graph(u), sinks[j], rank) ==>
                Reached(k2, gears, rotation, speed, w)
      ensures GearsKept(u, rank, gears, rotation)
      ensures Spread(u, rank, w, gears, rotation, speed)
    {
      Deliver(sinks[i], rotation, speed, rank, gears, u, w);
      assert sinks == old(sinks);
      SourceDownstreamIn(u, this);
      forall j, k2 | 0 <= j < i && k2 in Downstream(Graph(u), sinks[j], rank)
        ensures Reached(k2, gears, rotation, speed, w)
      {
        match k2 {
          case PulleySink(p) =>
            assert p in u.pulleys;
            assert old(Reached(k2, gears, rotation, speed, w));
            assert p.source in SourcesBelow(u, rank) && p in PulleysBelow(u, rank);
          case ConveyorSink(c) =>
            assert c in u.conveyors;
            assert old(Reached(k2, gears, rotation, speed, w));
            assert old(w.ContactList(c.handle)) == w.ContactList(c.handle);
            MovingKept(w.ContactList(c.handle), old(w.linearVelocity), w.linearVelocity, speed);
          case BodySink(b) =>
            assert b in u.bodies;
            assert old(Reached(k2, gears, rotation, speed, w));
        }
      }
    }

    /**
     * Sets the rotation and speed and then passes them to every sink: the
     * pair of calls every caller of a source makes.
     */
    method Turn(r: real, s: real, ghost gears: map<Pulley, PulleyRules.GearState>, ghost u: Universe, ghost w: World)
      requires this in u.sources && Wired(u) && Installed(u, w) && GearsKept(u, rank, gears, r)
      modifies this`rotation, this`speed
      modifies SourcesBelow(u, rank)`rotation, SourcesBelow(u, rank)`speed
      modifies PulleysBelow(u, rank)`rotation, PulleysBelow(u, rank)`previous
      modifies u.conveyors`speed, w`linearVelocity, w`angularVelocity
      decreases rank, 3
      ensures Graph(u) == old(Graph(u))
      ensures rotation == r && speed == s
      ensures forall i, k2 :: 0 <= i < |sinks| && k2 in Downstream(Graph(u), sinks[i], rank) ==> Reached(k2, gears, r, s, w)
      ensures GearsKept(u, rank, gears, r)
      ensures Spread(u, rank, w, gears, r, s)
    {
      SetRotation(r, s);
      UpdateSinks(gears, u, w);
    }
  }

  // ---------------------------------------------------------------------
  // Pulleys

  class Pulley {
    const radius: PulleyRules.NonZeroReal
    const source: RotationSource
    const base: ComponentBase
    var rotation: real
    var connections: seq<Pulley>
    var rocking: real
    var increasing: bool
    var driver: Pulley?
    var previous: real

    constructor (radius: PulleyRules.NonZeroReal, ghost rank: nat)
      ensures this.radius == radius && source.rank == rank && fresh(source) && fresh(base)
      ensures source.sinks == [] && base.machine == null
      ensures rotation == 0.0 && connections == [] && driver == null && previous == 0.0
      ensures PulleyRules.Rocking(rocking, increasing) == PulleyRules.InitialRocking
      ensures RockingInBand()
    {
      this.radius := radius;
      source := new RotationSource(rank);
      base := new ComponentBase();
      rotation := 0.0;
      connections := [];
      rocking := 2.0;
      increasing := true;
      driver := null;
      previous := 0.0;
    }

    /** The belt divisor stays in the band where drawing is well defined. */
    ghost predicate RockingInBand()
      reads this`rocking, this`increasing
    {
      PulleyRules.InBand(PulleyRules.Rocking(rocking, increasing))
    }

    /**
     * The gear step of one received rotation r: an undriven pulley takes r
     * as its rotation; a driven one integrates the gear-scaled value.
     */
    twostate predicate Geared(r: real)
      reads this`rotation, this`previous, this`driver
    {
      GearedFrom(PulleyRules.GearState(old(rotation), old(previous)), r)
    }

    /** The gear step of one received rotation r, taken from gear state g. */
    ghost predicate GearedFrom(g: PulleyRules.GearState, r: real)
      reads this`rotation, this`previous, this`driver
    {
      (driver == null ==> rotation == r && previous == g.previous)
      && (driver != null ==>
            PulleyRules.GearState(rotation, previous) == PulleyRules.GearStep(g, PulleyRules.Scaled(r, driver.radius, radius)))
    }

    /**
     * Receives the driver's rotation and takes the gear step. Either way the
     * received rotation and speed are passed on unchanged to this pulley's
     * sinks, which hold them afterwards.
     */
    method Rotate(r: real, s: real, ghost gears: map<Pulley, PulleyRules.GearState>, ghost u: Universe, ghost w: World)
      requires this in u.pulleys && Wired(u) && Installed(u, w) && GearsKept(u, source.rank + 1, gears, r)
      modifies this`rotation, this`previous, source`rotation, source`speed
      modifies SourcesBelow(u, source.rank)`rotation, SourcesBelow(u, source.rank)`speed
      modifies PulleysBelow(u, source.rank)`rotation, PulleysBelow(u, source.rank)`previous
      modifies u.conveyors`speed, w`linearVelocity, w`angularVelocity
      decreases source.rank, 4
      ensures Graph(u) == old(Graph(u))
      ensures Geared(r)
      ensures source.rotation == r && source.speed == s
      ensures forall i, k2 :: 0 <= i < |source.sinks| && k2 in Downstream(Graph(u), source.sinks[i], source.rank) ==>
                Reached(k2, gears, r, s, w)
      ensures GearsKept(u, source.rank + 1, gears, r)
      ensures Spread(u, source.rank, w, gears, r, s)
    {
      Step(r, gears, u);
      source.Turn(r, s, gears, u, w);
    }

    /**
     * The gear step of Rotate. A pulley that had taken the gear step on r
     * from its state in gears is left in the same state; no other pulley
     * and no sink list changes.
     */
    method Step(r: real, ghost gears: map<Pulley, PulleyRules.GearState>, ghost u: Universe)
      requires this in u.pulleys && GearsKept(u, source.rank + 1, gears, r)
      modifies this`rotation, this`previous
      ensures Geared(r) && GearedFrom(gears[this], r)
      ensures Graph(u) == old(Graph(u)) && GearsKept(u, source.rank + 1, gears, r)
    {
      if driver == null {
        rotation := r;
      } else {
        var scaled := PulleyRules.Scaled(r, driver.radius, radius);
        if Numeric.Abs(scaled) < Numeric.Abs(previous) {
          rotation := rotation + scaled;
        } else {
          rotation := rotation + (scaled - previous);
        }
        previous := scaled;
        PulleyRules.GearStepTwice(gears[this], scaled);
      }
    }

    /** Connects pulley p as driven by this one: a belt is drawn to it and it becomes a sink. */
    method Drive(p: Pulley)
      modifies this`connections, p`driver, source`sinks
      ensures connections == old(connections) + [p]
      ensures p.driver == this
      ensures source.sinks == old(source.sinks) + [PulleySink(p)]
    {
      connections := connections + [p];
      p.SetDriver(this);
      source.AddSink(PulleySink(p));
    }

    method SetDriver(p: Pulley)
      modifies this`driver
      ensures driver == p
    {
      driver := p;
    }

    /** A pulley has no physics body; installing it only stops its wheel. */
    method InstallPhysics()
      modifies this`rotation
      ensures rotation == 0.0
    {
      rotation := 0.0;
    }

    /**
     * Draws the belts to the driven pulleys. While the pulley turns, each
     * belt drawn advances the rocking oscillator once.
     */
    method Draw()
      requires RockingInBand()
      modifies this`rocking, this`increasing
      ensures RockingInBand()
      ensures PulleyRules.Rocking(rocking, increasing)
              == if rotation != 0.0 then PulleyRules.RockSteps(PulleyRules.Rocking(old(rocking), old(increasing)), |connections|)
                 else PulleyRules.Rocking(old(rocking), old(increasing))
    {
      ghost var start := PulleyRules.Rocking(rocking, increasing);
      var i := 0;
      while i < |connections|
        invariant 0 <= i <= |connections|
        invariant PulleyRules.Rocking(rocking, increasing)
                  == if rotation != 0.0 then PulleyRules.RockSteps(start, i) else start
      {
        if rotation != 0.0 {
          if rocking < PulleyRules.BeltRockMax && increasing {
            rocking := rocking + PulleyRules.BeltRockIncrement;
          } else {
            increasing := false;
          }
          if rocking > PulleyRules.BeltRockMin && !increasing {
            rocking := rocking - PulleyRules.BeltRockDecrement;
          } else {
            increasing := true;
          }
        }
        i := i + 1;
      }
      if rotation != 0.0 {
        PulleyRules.RockStepsInBand(start, |connections|);
      }
    }
  }

  // ---------------------------------------------------------------------
  // Conveyors and bodies

  class Conveyor {
    const base: ComponentBase
    var speed: real
    var rotation: real
    var world: World?
    var handle: BodyId

    constructor ()
      ensures speed == 0.0 && rotation == 0.0 && world == null && fresh(base) && base.machine == null
    {
      base := new ComponentBase();
      speed := 0.0;
      rotation := 0.0;
      world := null;
    }

    /**
     * Takes the driving speed, and gives every body touching the belt the
     * velocity (-speed, 0). The rotation itself is not used.
     */
    method Rotate(r: real, s: real, ghost w: World)
      requires world == w
      modifies this`speed, w`linearVelocity
      ensures speed == s
      ensures w.linearVelocity == ConveyorRules.Transport(s, old(w.ContactList(handle)), old(w.linearVelocity))
    {
      speed := s;
      var edges := world.ContactList(handle);
      var i := 0;
      while i < |edges|
        invariant 0 <= i <= |edges|
        invariant speed == s
        invariant w.linearVelocity == ConveyorRules.Transport(s, edges[..i], old(w.linearVelocity))
      {
        if edges[i].touching {
          world.SetLinearVelocity(edges[i].other, Vec2(-s, 0.0));
        }
        assert edges[..i + 1][..i] == edges[..i];
        i := i + 1;
      }
      assert edges[..i] == edges;
    }

    /** Before a contact with the belt is resolved, its tangent speed is the belt speed. */
    method PreSolve(contact: Contact)
      modifies contact`tangentSpeed
      ensures contact.tangentSpeed == speed
    {
      contact.tangentSpeed := speed;
    }

    method SetInitialRotation(r: real)
      modifies this`rotation
      ensures rotation == r
    {
      rotation := r;
    }

    /** Creates the belt's body in world w. */
    method InstallPhysics(w: World)
      modifies this`world, this`handle, w`bodyCount
      ensures world == w && handle == BodyId(w.generation, old(w.bodyCount))
      ensures w.bodyCount == old(w.bodyCount) + 1
    {
      world := w;
      handle := w.CreateBody();
    }

    /** Routes contacts with the belt body to this conveyor. */
    method AddContact(l: ContactListener)
      requires world != null
      modifies l`table
      ensures l.table == old(l.table)[handle := ConveyorPart(this)]
    {
      l.Add(handle, ConveyorPart(this));
    }
  }

  /** A plain rigid body; as a sink it takes the speed as its angular velocity. */
  class Body {
    const base: ComponentBase
    var world: World?
    var handle: BodyId

    constructor ()
      ensures world == null && fresh(base) && base.machine == null
    {
      base := new ComponentBase();
      world := null;
    }

    method Rotate(r: real, s: real, ghost w: World)
      requires world == w
      modifies w`angularVelocity
      ensures w.angularVelocity == old(w.angularVelocity)[handle := s]
    {
      world.SetAngularVelocity(handle, s);
    }

    method InstallPhysics(w: World)
      modifies this`world, this`handle, w`bodyCount
      ensures world == w && handle == BodyId(w.generation, old(w.bodyCount))
      ensures w.bodyCount == old(w.bodyCount) + 1
    {
      world := w;
      handle := w.CreateBody();
    }
  }

  // ---------------------------------------------------------------------
  // Hamsters

  /** A hamster in a wheel: the rotation source at the head of a drive chain. */
  class Hamster {
    const source: RotationSource
    const base: ComponentBase
    var speed: real
    var rotation: real
    /** The image shown: 0 is the sleeping hamster, 1 to 3 the running ones. */
    var index: int
    var running: bool
    var initiallyRunning: bool
    var world: World?
    var cage: BodyId

    constructor (ghost rank: nat)
      ensures fresh(source) && fresh(base) && source.rank == rank && source.sinks == [] && base.machine == null
      ensures speed == HamsterRules.DefaultSpeed && rotation == 0.0 && index == 0
      ensures !running && !initiallyRunning && world == null
      ensures Valid()
    {
      source := new RotationSource(rank);
      base := new ComponentBase();
      speed := HamsterRules.DefaultSpeed;
      rotation := 0.0;
      index := 0;
      running := false;
      initiallyRunning := false;
      world := null;
    }

    /**
     * The image index always names one of the four images, it is 0 exactly
     * when the hamster sleeps, and the wheel stays within one turn.
     */
    ghost predicate Valid()
      reads this`index, this`running, this`rotation
    {
      0 <= index < HamsterRules.ImageCount && (index == 0 <==> !running) && Numeric.Abs(rotation) <= 1.0
    }

    method SetSpeed(s: real)
      modifies this`speed
      ensures speed == s
    {
      speed := s;
    }

    /** A ball touching the cage wakes the hamster. */
    method BeginContact()
      requires Valid()
      modifies this`running, this`index
      ensures running && index == 1 && Valid()
    {
      running := true;
      index := 1;
    }

    /**
     * Turns the wheel. An awake hamster sends its rotation and the speed
     * -speed to its sinks and advances its image; a sleeping one sends
     * rotation 0 and speed 0.
     */
    method Update(elapsed: real, ghost u: Universe, ghost w: World)
      requires Valid() && this in u.hamsters && Wired(u) && Installed(u, w)
      modifies this`rotation, this`index, source`rotation, source`speed
      modifies SourcesBelow(u, source.rank)`rotation, SourcesBelow(u, source.rank)`speed
      modifies PulleysBelow(u, source.rank)`rotation, PulleysBelow(u, source.rank)`previous
      modifies u.conveyors`speed, w`linearVelocity, w`angularVelocity
      ensures Valid()
      ensures rotation == HamsterRules.Advance(old(rotation), speed, elapsed, running)
      ensures old(index) != 0 ==>
                index == HamsterRules.ImageIndex(rotation) && source.rotation == rotation && source.speed == -speed
      ensures old(index) == 0 ==> index == 0 && source.rotation == 0.0 && source.speed == 0.0
      ensures forall i, k2 :: 0 <= i < |source.sinks| && k2 in Downstream(Graph(u), source.sinks[i], source.rank) ==>
                Reached(k2, old(Gears(u)), source.rotation, source.speed, w)
    {
      ghost var gears := Gears(u);
      var turned := HamsterRules.Advance(rotation, speed, elapsed, running);
      rotation := turned;
      var awake := index != 0;
      if awake {
        source.Turn(turned, -speed, gears, u, w);
      } else {
        source.Turn(0.0, 0.0, gears, u, w);
      }
      if awake {
        index := HamsterRules.ImageIndex(turned);
      }
    }

    /**
     * Creates the cage body in world w. A hamster that is not set to run
     * initially goes back to sleep; the wheel rotation is kept.
     */
    method InstallPhysics(w: World)
      requires Valid()
      modifies this`world, this`cage, this`running, this`index, w`bodyCount
      ensures world == w && cage == BodyId(w.generation, old(w.bodyCount))
      ensures w.bodyCount == old(w.bodyCount) + 1
      ensures !initiallyRunning ==> !running && index == 0
      ensures initiallyRunning ==> running == old(running) && index == old(index)
      ensures Valid()
    {
      world := w;
      cage := w.CreateBody();
      if !initiallyRunning {
        running := false;
        index := 0;
      }
    }

    /** Marks the hamster as running from the start; the argument is not used. */
    method SetInitiallyRunning(r: bool)
      requires Valid()
      modifies this`running, this`initiallyRunning, this`index
      ensures running && initiallyRunning && index == 1 && Valid()
    {
      running := true;
      initiallyRunning := true;
      index := 1;
    }

    /** Routes contacts with the cage body to this hamster. */
    method AddContact(l: ContactListener)
      requires world != null
      modifies l`table
      ensures l.table == old(l.table)[cage := HamsterPart(this)]
    {
      l.Add(cage, HamsterPart(this));
    }

    /**
     * What drawing shows: the running image at the current index, the wheel
     * at the current rotation, mirrored when the speed is negative.
     */
    method Draw() returns (image: int, wheel: real, mirrored: bool)
      requires Valid()
      ensures 0 <= image < HamsterRules.ImageCount && image == index
      ensures image == 0 <==> !running
      ensures wheel == rotation && Numeric.Abs(wheel) <= 1.0
      ensures mirrored <==> speed < 0.0
    {
      image := index;
      wheel := rotation;
      mirrored := speed < 0.0;
    }
  }

  // ---------------------------------------------------------------------
  // Goals

  /** A basketball goal: a target the ball passes through and a backboard post. */
  class Goal {
    const base: ComponentBase
    var score: int
    /** The baskets and resets this goal has seen. */
    ghost var events: seq<GoalRules.GoalEvent>
    var world: World?
    var target: BodyId
    var post: BodyId

    constructor ()
      ensures fresh(base) && base.machine == null
      ensures score == 0 && events == [] && world == null && Valid()
    {
      base := new ComponentBase();
      score := 0;
      events := [];
      world := null;
    }

    /** The score always reflects the events seen. */
    ghost predicate Valid()
      reads this`score, this`events
    {
      score == GoalRules.ScoreAfter(events)
    }

    /** A ball reaching the target scores a basket. */
    method BeginContact()
      requires Valid()
      modifies this`score, this`events
      ensures score == old(score) + GoalRules.BasketPoints
      ensures events == old(events) + [GoalRules.Basket] && Valid()
    {
      score := score + 2;
      events := events + [GoalRules.Basket];
    }

    /** Contacts with the target are disabled, so the ball passes through it. */
    method PreSolve(contact: Contact)
      modifies contact`enabled
      ensures !contact.enabled
    {
      contact.enabled := false;
    }

    /** Creates the target body and then the post body in world w, and clears the score. */
    method InstallPhysics(w: World)
      modifies this`world, this`target, this`post, this`score, this`events, w`bodyCount
      ensures world == w
      ensures target == BodyId(w.generation, old(w.bodyCount))
      ensures post == BodyId(w.generation, old(w.bodyCount) + 1)
      ensures w.bodyCount == old(w.bodyCount) + 2
      ensures score == 0 && events == old(events) + [GoalRules.Reset] && Valid()
    {
      world := w;
      target := w.CreateBody();
      post := w.CreateBody();
      score := 0;
      events := events + [GoalRules.Reset];
    }

    /** Routes contacts with the target body (not the post) to this goal. */
    method AddContact(l: ContactListener)
      requires world != null
      modifies l`table
      ensures l.table == old(l.table)[target := GoalPart(this)]
    {
      l.Add(target, GoalPart(this));
    }

    /** The scoreboard text: a leading 0 below ten, then the score. */
    method Draw() returns (text: string)
      requires Valid()
      ensures text == GoalRules.ScoreText(score)
      ensures GoalRules.AllDigits(text) && GoalRules.ParseNat(text) == score
      ensures score < 100 ==> |text| == 2
    {
      GoalRules.ScoreEven(events);
      text := [];
      if score < 10 {
        text := "0";
      }
      text := text + GoalRules.IntToString(score);
    }
  }

  // ---------------------------------------------------------------------
  // Contact routing

  /** The table from physics bodies to the components that handle their contacts. */
  class ContactListener {
    var table: map<BodyId, Component>

    constructor ()
      ensures table == map[]
    {
      table := map[];
    }

    method Add(b: BodyId, c: Component)
      modifies this`table
      ensures table == old(table)[b := c]
    {
      table := table[b := c];
    }
  }

  // ---------------------------------------------------------------------
  // The machine

  const VelocityIterations: int := 6
  const PositionIterations: int := 2

  /** How many times component c appears in parts. */
  function Occurrences(parts: seq<Component>, c: Component): (n: nat)
    ensures n == 0 <==> c !in parts
  {
    if parts == [] then 0
    else
      var front := parts[..|parts| - 1];
      assert parts == front + [parts[|parts| - 1]];
      Occurrences(front, c) + if parts[|parts| - 1] == c then 1 else 0
  }

  lemma OccurrencesStep(parts: seq<Component>, i: nat, c: Component)
    requires i < |parts|
    ensures Occurrences(parts[..i + 1], c) == Occurrences(parts[..i], c) + if parts[i] == c then 1 else 0
  {
    assert parts[..i + 1][..i] == parts[..i];
  }

  /** The components that register a body for contact callbacks. */
  predicate Registers(c: Component)
  {
    c.HamsterPart? || c.ConveyorPart? || c.GoalPart?
  }

  function PartObject(c: Component): object
  {
    match c
    case HamsterPart(h) => h
    case PulleyPart(p) => p
    case ConveyorPart(v) => v
    case GoalPart(g) => g
    case BodyPart(b) => b
  }

  ghost function PartObjects(parts: seq<Component>): set<object>
  {
    set i | 0 <= i < |parts| :: PartObject(parts[i])
  }

  /** No object is the object of two parts. */
  ghost predicate Distinct(parts: seq<Component>)
  {
    forall j, k :: 0 <= j < k < |parts| ==> PartObject(parts[j]) != PartObject(parts[k])
  }

  /** In a list of distinct components, each component of the list appears exactly once. */
  lemma {:induction false} DistinctOnce(parts: seq<Component>, c: Component)
    requires Distinct(parts) && c in parts
    ensures Occurrences(parts, c) == 1
  {
    var front := parts[..|parts| - 1];
    assert parts == front + [parts[|parts| - 1]];
    if parts[|parts| - 1] != c {
      assert Distinct(front) by {
        forall j, k | 0 <= j < k < |front|
          ensures PartObject(front[j]) != PartObject(front[k])
        {
          assert front[j] == parts[j] && front[k] == parts[k];
        }
      }
      DistinctOnce(front, c);
    }
  }

  /** The universe u with component c and the rotation source it owns added. */
  function WithPart(u: Universe, c: Component): (r: Universe)
    ensures PartIn(r, c)
  {
    match c
    case HamsterPart(h) => u.(hamsters := u.hamsters + {h}, sources := u.sources + {h.source})
    case PulleyPart(p) => u.(pulleys := u.pulleys + {p}, sources := u.sources + {p.source})
    case ConveyorPart(v) => u.(conveyors := u.conveyors + {v})
    case GoalPart(g) => u.(goals := u.goals + {g})
    case BodyPart(b) => u.(bodies := u.bodies + {b})
  }

  const EmptyUniverse := Universe({}, {}, {}, {}, {}, {})

  ghost predicate PartIn(u: Universe, c: Component)
  {
    match c
    case HamsterPart(h) => h in u.hamsters
    case PulleyPart(p) => p in u.pulleys
    case ConveyorPart(v) => v in u.conveyors
    case GoalPart(g) => g in u.goals
    case BodyPart(b) => b in u.bodies
  }

  /** The invariant a component keeps by itself (hamster image, goal score, pulley belts). */
  ghost predicate PartValid(c: Component)
    reads PartObject(c)
  {
    match c
    case HamsterPart(h) => h.Valid()
    case PulleyPart(p) => p.RockingInBand()
    case GoalPart(g) => g.Valid()
    case _ => true
  }

  /** Every hamster of the universe keeps its image invariant. */
  ghost predicate HamstersValid(u: Universe)
    reads u.hamsters`index, u.hamsters`running, u.hamsters`rotation
  {
    forall h :: h in u.hamsters ==> h.Valid()
  }

  /** Every pulley's belt oscillator stays in its band. */
  ghost predicate PulleysInBand(u: Universe)
    reads u.pulleys`rocking, u.pulleys`increasing
  {
    forall p :: p in u.pulleys ==> p.RockingInBand()
  }

  /** Every goal's score reflects its events. */
  ghost predicate GoalsValid(u: Universe)
    reads u.goals`score, u.goals`events
  {
    forall g :: g in u.goals ==> g.Valid()
  }

  /** The body a registering component routes contacts for. */
  function ContactKey(c: Component): BodyId
    requires Registers(c)
    reads PartObject(c)
  {
    match c
    case HamsterPart(h) => h.cage
    case ConveyorPart(v) => v.handle
    case GoalPart(g) => g.target
  }

  /** The bodies of component c are in world w (a pulley has none). */
  ghost predicate PartInstalled(c: Component, w: World)
    reads PartObject(c)
  {
    match c
    case HamsterPart(h) => h.world == w
    case PulleyPart(p) => true
    case ConveyorPart(v) => v.world == w
    case GoalPart(g) => g.world == w
    case BodyPart(b) => b.world == w
  }

  /** The state of a component apart from its world and body handles. */
  datatype PartState =
    | HamsterState(speed: real, rotation: real, running: bool, index: int, initiallyRunning: bool)
    | PulleyState(rotation: real, previous: real, driver: Pulley?, connections: seq<Pulley>,
                  rocking: real, increasing: bool)
    | ConveyorState(speed: real, rotation: real)
    | GoalState(score: int, events: seq<GoalRules.GoalEvent>)
    | BodyState

  ghost function StateOf(c: Component): PartState
    reads PartObject(c)
  {
    match c
    case HamsterPart(h) => HamsterState(h.speed, h.rotation, h.running, h.index, h.initiallyRunning)
    case PulleyPart(p) => PulleyState(p.rotation, p.previous, p.driver, p.connections, p.rocking, p.increasing)
    case ConveyorPart(v) => ConveyorState(v.speed, v.rotation)
    case GoalPart(g) => GoalState(g.score, g.events)
    case BodyPart(b) => BodyState
  }

  /**
   * The state installing a component leaves: a hamster not set to run
   * initially goes to sleep, a pulley's wheel stops, a goal's score is
   * cleared, and everything else is kept as it was.
   */
  function Reinstalled(s: PartState): PartState
  {
    match s
    case HamsterState(speed, rotation, running, index, initiallyRunning) =>
      if initiallyRunning then s else HamsterState(speed, rotation, false, 0, initiallyRunning)
    case PulleyState(_, previous, driver, connections, rocking, increasing) =>
      PulleyState(0.0, previous, driver, connections, rocking, increasing)
    case ConveyorState(_, _) => s
    case GoalState(_, events) => GoalState(0, events + [GoalRules.Reset])
    case BodyState => s
  }

  /**
   * What installing keeps: a hamster's speed, wheel and start mode (and
   * everything when it starts running), a pulley's gear memory, driver,
   * belts and oscillator, a conveyor's whole state, and a goal's history,
   * to which one reset is added.
   */
  lemma ReinstalledKeeps(s: PartState)
    ensures s.HamsterState? ==> var r := Reinstalled(s);
      r.HamsterState? && r.speed == s.speed && r.rotation == s.rotation && r.initiallyRunning == s.initiallyRunning
      && (s.initiallyRunning ==> r == s) && (!s.initiallyRunning ==> !r.running && r.index == 0)
    ensures s.PulleyState? ==> var r := Reinstalled(s);
      r.PulleyState? && r.rotation == 0.0 && r.previous == s.previous && r.driver == s.driver
      && r.connections == s.connections && r.rocking == s.rocking && r.increasing == s.increasing
    ensures s.ConveyorState? || s.BodyState? ==> Reinstalled(s) == s
    ensures s.GoalState? ==> Reinstalled(s) == GoalState(0, s.events + [GoalRules.Reset])
  {
  }

  /** Every registering part is the owner of its contact body in the table. */
  ghost predicate Routed(parts: seq<Component>, l: ContactListener)
    reads PartObjects(parts), l`table
  {
    forall i :: 0 <= i < |parts| && Registers(parts[i]) ==>
      ContactKey(parts[i]) in l.table && l.table[ContactKey(parts[i])] == parts[i]
  }

  /** A hamster's rotation and image index. */
  ghost function Wheel(h: Hamster): (real, int)
    reads h`rotation, h`index
  {
    (h.rotation, h.index)
  }

  /**
   * A component's Update. Only a hamster does anything: it turns its wheel
   * and drives its sinks. The Update of the other components is empty.
   */
  method UpdatePart(c: Component, elapsed: real, ghost u: Universe, ghost w: World)
    requires Wired(u) && Installed(u, w) && HamstersValid(u)
    requires c.HamsterPart? ==> c.hamster in u.hamsters
    modifies u.hamsters`rotation, u.hamsters`index
    modifies u.sources`rotation, u.sources`speed
    modifies u.pulleys`rotation, u.pulleys`previous, u.conveyors`speed
    modifies w`linearVelocity, w`angularVelocity
    ensures HamstersValid(u)
    ensures c.HamsterPart? ==>
              var h := c.hamster;
              h.rotation == HamsterRules.Advance(old(h.rotation), h.speed, elapsed, h.running)
              && h.index == (if h.running then HamsterRules.ImageIndex(h.rotation) else old(h.index))
              && (if h.running then h.source.rotation == h.rotation && h.source.speed == -h.speed
                  else h.source.rotation == 0.0 && h.source.speed == 0.0)
              && forall i, k2 :: 0 <= i < |h.source.sinks| && k2 in Downstream(Graph(u), h.source.sinks[i], h.source.rank) ==>
                   Reached(k2, old(Gears(u)), h.source.rotation, h.source.speed, w)
    ensures forall h :: h in u.hamsters && c != HamsterPart(h) ==> Wheel(h) == old(Wheel(h))
    ensures !c.HamsterPart? ==> unchanged(u.sources, u.pulleys, u.conveyors, w)
  {
    match c {
      case HamsterPart(h) =>
        h.Update(elapsed, u, w);
      case _ =>
    }
  }

  /**
   * Calls Update(elapsed) on each of the parts in order. Each hamster turns
   * its wheel once for every time it appears among the parts.
   */
  method UpdateParts(parts: seq<Component>, elapsed: real, ghost u: Universe, ghost w: World)
    requires Wired(u) && Installed(u, w) && HamstersValid(u)
    requires forall i :: 0 <= i < |parts| ==> PartIn(u, parts[i])
    modifies u.hamsters`rotation, u.hamsters`index
    modifies u.sources`rotation, u.sources`speed
    modifies u.pulleys`rotation, u.pulleys`previous, u.conveyors`speed
    modifies w`linearVelocity, w`angularVelocity
    ensures HamstersValid(u)
    ensures forall h :: h in u.hamsters ==> Turned(h, old(Wheel(h)), elapsed, Occurrences(parts, HamsterPart(h)))
  {
    ghost var start := map h | h in u.hamsters :: Wheel(h);
    assert parts[..0] == [];
    var i := 0;
    while i < |parts|
      invariant 0 <= i <= |parts|
      invariant HamstersValid(u)
      invariant forall h :: h in u.hamsters ==> Turned(h, start[h], elapsed, Occurrences(parts[..i], HamsterPart(h)))
    {
      UpdateAt(parts, i, elapsed, u, w, start);
      i := i + 1;
    }
    assert parts[..i] == parts;
  }

  /**
   * Hamster h, whose wheel was at start, has since been updated n times:
   * the rotation advanced n times, and the image follows it when the
   * hamster runs and was updated at all.
   */
  ghost predicate Turned(h: Hamster, start: (real, int), elapsed: real, n: nat)
    reads h`rotation, h`index, h`speed, h`running
  {
    h.rotation == HamsterRules.AdvanceTimes(start.0, h.speed, elapsed, h.running, n)
    && h.index == if n > 0 && h.running then HamsterRules.ImageIndex(h.rotation) else start.1
  }

  /** Update on part i, counted into the number of updates of every hamster. */
  method UpdateAt(parts: seq<Component>, i: nat, elapsed: real, ghost u: Universe, ghost w: World, ghost start: map<Hamster, (real, int)>)
    requires i < |parts| && Wired(u) && Installed(u, w) && HamstersValid(u) && PartIn(u, parts[i])
    requires forall h :: h in u.hamsters ==> h in start && Turned(h, start[h], elapsed, Occurrences(parts[..i], HamsterPart(h)))
    modifies u.hamsters`rotation, u.hamsters`index
    modifies u.sources`rotation, u.sources`speed
    modifies u.pulleys`rotation, u.pulleys`previous, u.conveyors`speed
    modifies w`linearVelocity, w`angularVelocity
    ensures HamstersValid(u)
    ensures forall h :: h in u.hamsters ==> Turned(h, start[h], elapsed, Occurrences(parts[..i + 1], HamsterPart(h)))
  {
    UpdatePart(parts[i], elapsed, u, w);
    forall h | h in u.hamsters
      ensures Occurrences(parts[..i + 1], HamsterPart(h)) == Occurrences(parts[..i], HamsterPart(h)) + if parts[i] == HamsterPart(h) then 1 else 0
    {
      OccurrencesStep(parts, i, HamsterPart(h));
    }
  }

  /** A pulley's belt oscillator. */
  ghost function Rock(p: Pulley): PulleyRules.Rocking
    reads p`rocking, p`increasing
  {
    PulleyRules.Rocking(p.rocking, p.increasing)
  }

  /**
   * Pulley p, whose oscillator was at start, has since been drawn n times:
   * while it turns, the oscillator has advanced once per belt per draw.
   */
  ghost predicate Drawn(p: Pulley, start: PulleyRules.Rocking, n: nat)
    reads p`rocking, p`increasing, p`rotation, p`connections
  {
    Rock(p) == if p.rotation != 0.0 then PulleyRules.RockSteps(start, n * |p.connections|) else start
  }

  /**
   * A component's Draw. Drawing a pulley advances its belt oscillator; the
   * other components only read their state.
   */
  method DrawPart(c: Component, ghost u: Universe)
    requires PartIn(u, c) && HamstersValid(u) && PulleysInBand(u) && GoalsValid(u)
    modifies u.pulleys`rocking, u.pulleys`increasing
    ensures PulleysInBand(u)
    ensures c.PulleyPart? ==> Drawn(c.pulley, old(Rock(c.pulley)), 1)
    ensures forall p :: p in u.pulleys && c != PulleyPart(p) ==> Rock(p) == old(Rock(p))
  {
    match c {
      case HamsterPart(h) =>
        var image, wheel, mirrored := h.Draw();
      case PulleyPart(p) =>
        p.Draw();
      case GoalPart(g) =>
        var text := g.Draw();
      case _ =>
    }
  }

  /**
   * Calls Draw on each of the parts in order. Each pulley is drawn once for
   * every time it appears among the parts.
   */
  method DrawParts(parts: seq<Component>, ghost u: Universe)
    requires HamstersValid(u) && PulleysInBand(u) && GoalsValid(u)
    requires forall i :: 0 <= i < |parts| ==> PartIn(u, parts[i])
    modifies u.pulleys`rocking, u.pulleys`increasing
    ensures PulleysInBand(u)
    ensures forall p :: p in u.pulleys ==> Drawn(p, old(Rock(p)), Occurrences(parts, PulleyPart(p)))
  {
    ghost var start := map p | p in u.pulleys :: Rock(p);
    assert parts[..0] == [];
    var i := 0;
    while i < |parts|
      invariant 0 <= i <= |parts|
      invariant PulleysInBand(u)
      invariant forall p :: p in u.pulleys ==> Drawn(p, start[p], Occurrences(parts[..i], PulleyPart(p)))
    {
      DrawAt(parts, i, u, start);
      i := i + 1;
    }
    assert parts[..i] == parts;
  }

  /** Draw on part i, counted into the number of draws of every pulley. */
  method DrawAt(parts: seq<Component>, i: nat, ghost u: Universe, ghost start: map<Pulley, PulleyRules.Rocking>)
    requires i < |parts| && PartIn(u, parts[i]) && HamstersValid(u) && PulleysInBand(u) && GoalsValid(u)
    requires forall p :: p in u.pulleys ==> p in start && Drawn(p, start[p], Occurrences(parts[..i], PulleyPart(p)))
    modifies u.pulleys`rocking, u.pulleys`increasing
    ensures PulleysInBand(u)
    ensures forall p :: p in u.pulleys ==> Drawn(p, start[p], Occurrences(parts[..i + 1], PulleyPart(p)))
  {
    DrawPart(parts[i], u);
    forall p | p in u.pulleys
      ensures Drawn(p, start[p], Occurrences(parts[..i + 1], PulleyPart(p)))
    {
      OccurrencesStep(parts, i, PulleyPart(p));
      DrawnStep(start[p], old(Rock(p)), Rock(p), p.rotation != 0.0,
                Occurrences(parts[..i], PulleyPart(p)), |p.connections|, parts[i] == PulleyPart(p));
    }
  }

  /**
   * One more draw of a pulley with k belts, drawn n times since its
   * oscillator was at start, makes n + 1 draws; any other draw leaves it at n.
   */
  lemma DrawnStep(start: PulleyRules.Rocking, mid: PulleyRules.Rocking, last: PulleyRules.Rocking,
                  turning: bool, n: nat, k: nat, drawn: bool)
    requires mid == if turning then PulleyRules.RockSteps(start, n * k) else start
    requires last == if drawn && turning then PulleyRules.RockSteps(mid, 1 * k) else mid
    ensures last == if turning then PulleyRules.RockSteps(start, (n + if drawn then 1 else 0) * k) else start
  {
    if drawn && turning {
      PulleyRules.RockStepsAdd(start, n * k, k);
      assert n * k + k == (n + 1) * k;
    }
  }

  /**
   * InstallPhysics and then AddContact on one component. Pulleys and bodies
   * register nothing; a goal creates two bodies and registers the first.
   */
  method InstallPart(c: Component, w: World, l: ContactListener)
    requires PartValid(c)
    modifies PartObject(c), w`bodyCount, l`table
    ensures PartInstalled(c, w) && PartValid(c)
    ensures StateOf(c) == Reinstalled(old(StateOf(c)))
    ensures Registers(c) ==>
              ContactKey(c) == BodyId(w.generation, old(w.bodyCount)) && l.table == old(l.table)[ContactKey(c) := c]
    ensures !Registers(c) ==> l.table == old(l.table)
    ensures w.bodyCount >= old(w.bodyCount) && (Registers(c) ==> w.bodyCount > old(w.bodyCount))
  {
    match c {
      case HamsterPart(h) =>
        h.InstallPhysics(w);
        h.AddContact(l);
      case PulleyPart(p) =>
        p.InstallPhysics();
      case ConveyorPart(v) =>
        v.InstallPhysics(w);
        v.AddContact(l);
      case GoalPart(g) =>
        g.InstallPhysics(w);
        g.AddContact(l);
      case BodyPart(b) =>
        b.InstallPhysics(w);
    }
  }

  lemma PartObjectIsPart(c: Component, w: World, l: ContactListener)
    ensures PartObject(c) != w && PartObject(c) != l
  {
  }

  /**
   * Component c, which was in state before, is installed in w, keeps its
   * invariant, is in the state installing leaves, and routes contacts with key.
   */
  ghost predicate Done(c: Component, before: PartState, w: World, key: BodyId)
    reads PartObject(c)
  {
    PartInstalled(c, w) && PartValid(c) && StateOf(c) == Reinstalled(before)
    && (Registers(c) ==> ContactKey(c) == key)
  }

  /** Component c keeps its invariant and is still in state before. */
  ghost predicate Pending(c: Component, before: PartState)
    reads PartObject(c)
  {
    PartValid(c) && StateOf(c) == before
  }

  /** Done holds of each of the first n parts with its earlier state and its key. */
  ghost predicate DoneUpTo(parts: seq<Component>, before: seq<PartState>, keys: seq<BodyId>, w: World, n: nat)
    requires n <= |parts| && n <= |before| && n <= |keys|
    reads PartObjects(parts)
  {
    forall j :: 0 <= j < n ==> Done(parts[j], before[j], w, keys[j])
  }

  lemma DoneUpToExtend(parts: seq<Component>, before: seq<PartState>, keys: seq<BodyId>, key: BodyId, w: World, n: nat)
    requires n < |parts| && n < |before| && |keys| == n
    requires DoneUpTo(parts, before, keys, w, n) && Done(parts[n], before[n], w, key)
    ensures DoneUpTo(parts, before, keys + [key], w, n + 1)
  {
    assert forall j :: 0 <= j < n ==> (keys + [key])[j] == keys[j];
  }

  /** Every part from n on is still pending in its earlier state. */
  ghost predicate PendingFrom(parts: seq<Component>, before: seq<PartState>, n: nat)
    requires n <= |parts| == |before|
    reads PartObjects(parts)
  {
    forall j :: n <= j < |parts| ==> Pending(parts[j], before[j])
  }

  /** The routing table after registering each of the first n registering parts under its key, in order. */
  function TableUpTo(parts: seq<Component>, keys: seq<BodyId>, n: nat): (m: map<BodyId, Component>)
    requires n <= |parts| && n <= |keys|
  {
    if n == 0 then map[]
    else if Registers(parts[n - 1]) then TableUpTo(parts, keys, n - 1)[keys[n - 1] := parts[n - 1]]
    else TableUpTo(parts, keys, n - 1)
  }

  lemma {:induction false} TableUpToKeys(parts: seq<Component>, keys: seq<BodyId>, keys': seq<BodyId>, n: nat)
    requires n <= |parts| && n <= |keys| && n <= |keys'| && keys[..n] == keys'[..n]
    ensures TableUpTo(parts, keys, n) == TableUpTo(parts, keys', n)
  {
    if n > 0 {
      assert keys[n - 1] == keys[..n][n - 1] == keys'[..n][n - 1] == keys'[n - 1];
      assert keys[..n - 1] == keys[..n][..n - 1];
      assert keys'[..n - 1] == keys'[..n][..n - 1];
      TableUpToKeys(parts, keys, keys', n - 1);
    }
  }

  /**
   * When the key of each registering part names a body created before every
   * later part's key, the table routes each registering part's key to that
   * part and holds nothing else.
   */
  lemma {:induction false} TableRoutes(parts: seq<Component>, keys: seq<BodyId>, n: nat)
    requires n <= |parts| && n <= |keys|
    requires forall j, k :: 0 <= j < k < n && Registers(parts[j]) ==> keys[j].index < keys[k].index
    ensures forall j :: 0 <= j < n && Registers(parts[j]) ==>
              keys[j] in TableUpTo(parts, keys, n) && TableUpTo(parts, keys, n)[keys[j]] == parts[j]
    ensures forall b :: b in TableUpTo(parts, keys, n) ==>
              exists j :: 0 <= j < n && b == keys[j] && TableUpTo(parts, keys, n)[b] == parts[j]
  {
    if n > 0 {
      TableRoutes(parts, keys, n - 1);
    }
  }

  /**
   * The state after installing the first |keys| parts: each of them is done
   * with its key, the rest are still pending, the keys are bodies of w
   * created in order, and the table holds exactly the registrations so far.
   */
  ghost predicate Progress(parts: seq<Component>, before: seq<PartState>, keys: seq<BodyId>, w: World, l: ContactListener)
    reads PartObjects(parts), w`bodyCount, l`table
  {
    var n := |keys|;
    n <= |parts| == |before|
    && DoneUpTo(parts, before, keys, w, n)
    && PendingFrom(parts, before, n)
    && (forall j :: 0 <= j < n ==> keys[j].generation == w.generation)
    && (forall j :: 0 <= j < n && Registers(parts[j]) ==> keys[j].index < w.bodyCount)
    && (forall j, k :: 0 <= j < k < n && Registers(parts[j]) ==> keys[j].index < keys[k].index)
    && l.table == TableUpTo(parts, keys, n)
  }

  /**
   * Once every part is installed, each is installed, valid and in the state
   * installing leaves; the registering parts hold bodies of w created in list
   * order; and the table routes exactly the parts.
   */
  lemma ProgressComplete(parts: seq<Component>, before: seq<PartState>, keys: seq<BodyId>, w: World, l: ContactListener)
    requires |keys| == |parts| && Progress(parts, before, keys, w, l)
    ensures forall i :: 0 <= i < |parts| ==>
              PartInstalled(parts[i], w) && PartValid(parts[i]) && StateOf(parts[i]) == Reinstalled(before[i])
    ensures InstallOrder(parts, w)
    ensures Routed(parts, l)
    ensures forall b :: b in l.table ==> b.generation == w.generation && l.table[b] in parts
  {
    TableRoutes(parts, keys, |parts|);
  }

  /**
   * The contact bodies of the registering parts are bodies of w, created in
   * the order of the parts: the trace installing them in order leaves.
   */
  ghost predicate InstallOrder(parts: seq<Component>, w: World)
    reads PartObjects(parts)
  {
    (forall j :: 0 <= j < |parts| && Registers(parts[j]) ==> ContactKey(parts[j]).generation == w.generation)
    && forall j, k :: 0 <= j < k < |parts| && Registers(parts[j]) && Registers(parts[k]) ==>
         ContactKey(parts[j]).index < ContactKey(parts[k]).index
  }

  /**
   * InstallPart on part i of a list. Installing it touches no other part, so
   * the earlier parts stay done and the later ones stay pending.
   */
  method InstallAt(parts: seq<Component>, ghost before: seq<PartState>, i: nat, w: World, l: ContactListener,
                   ghost keys: seq<BodyId>, ghost key: BodyId)
    requires Distinct(parts) && i == |keys| < |parts| == |before| && key == BodyId(w.generation, w.bodyCount)
    requires DoneUpTo(parts, before, keys, w, i) && PendingFrom(parts, before, i)
    modifies PartObject(parts[i]), w`bodyCount, l`table
    ensures Done(parts[i], before[i], w, key)
    ensures Registers(parts[i]) ==> l.table == old(l.table)[key := parts[i]]
    ensures !Registers(parts[i]) ==> l.table == old(l.table)
    ensures w.bodyCount >= old(w.bodyCount) && (Registers(parts[i]) ==> w.bodyCount > old(w.bodyCount))
    ensures DoneUpTo(parts, before, keys, w, i) && PendingFrom(parts, before, i + 1)
  {
    var c := parts[i];
    label start:
    InstallPart(c, w, l);
    forall j | 0 <= j < i
      ensures Done(parts[j], before[j], w, keys[j])
    {
      assert PartObject(parts[j]) != PartObject(c);
      assert old@start(Done(parts[j], before[j], w, keys[j]));
    }
    forall j | i < j < |parts|
      ensures Pending(parts[j], before[j])
    {
      assert PartObject(parts[j]) != PartObject(c);
      assert old@start(Pending(parts[j], before[j]));
    }
  }

  /**
   * The progress after part n = |keys| is installed with key, assembled from
   * what installing it leaves: the key sits in w's generation above every
   * earlier registered key and below the new body count.
   */
  lemma ProgressNext(parts: seq<Component>, before: seq<PartState>, keys: seq<BodyId>, key: BodyId,
                     w: World, l: ContactListener, count: nat)
    requires |keys| < |parts| == |before|
    requires DoneUpTo(parts, before, keys, w, |keys|) && Done(parts[|keys|], before[|keys|], w, key)
    requires PendingFrom(parts, before, |keys| + 1)
    requires forall j :: 0 <= j < |keys| ==> keys[j].generation == w.generation
    requires forall j :: 0 <= j < |keys| && Registers(parts[j]) ==> keys[j].index < count
    requires forall j, k :: 0 <= j < k < |keys| && Registers(parts[j]) ==> keys[j].index < keys[k].index
    requires key == BodyId(w.generation, count) && count <= w.bodyCount
    requires Registers(parts[|keys|]) ==> count < w.bodyCount
    requires l.table == TableUpTo(parts, keys + [key], |keys| + 1)
    ensures Progress(parts, before, keys + [key], w, l)
  {
    assert |keys + [key]| == |keys| + 1;
    KeysInGeneration(keys, key, w.generation);
    KeysIncreasing(parts, keys, key);
    DoneUpToExtend(parts, before, keys, key, w, |keys|);
    KeysBelowCount(parts, keys, key, count, w.bodyCount);
  }

  /** Appending a key of generation g keeps every key in generation g. */
  lemma KeysInGeneration(keys: seq<BodyId>, key: BodyId, g: nat)
    requires forall j :: 0 <= j < |keys| ==> keys[j].generation == g
    requires key.generation == g
    ensures forall j :: 0 <= j < |keys + [key]| ==> (keys + [key])[j].generation == g
  {
  }

  /** Appending the key of the body count before installing a part keeps the registered keys below the new count. */
  lemma KeysBelowCount(parts: seq<Component>, keys: seq<BodyId>, key: BodyId, count: nat, count': nat)
    requires |keys| < |parts| && count <= count'
    requires forall j :: 0 <= j < |keys| && Registers(parts[j]) ==> keys[j].index < count
    requires key.index == count && (Registers(parts[|keys|]) ==> count < count')
    ensures forall j :: 0 <= j < |keys + [key]| && Registers(parts[j]) ==> (keys + [key])[j].index < count'
  {
  }

  /** Appending the key of the body count before installing a part keeps the registered keys increasing. */
  lemma KeysIncreasing(parts: seq<Component>, keys: seq<BodyId>, key: BodyId)
    requires |keys| < |parts|
    requires forall j :: 0 <= j < |keys| && Registers(parts[j]) ==> keys[j].index < key.index
    requires forall j, k :: 0 <= j < k < |keys| && Registers(parts[j]) ==> keys[j].index < keys[k].index
    ensures forall j, k :: 0 <= j < k < |keys + [key]| && Registers(parts[j]) ==> (keys + [key])[j].index < (keys + [key])[k].index
  {
    var ks := keys + [key];
    forall j, k | 0 <= j < k < |keys| + 1 && Registers(parts[j])
      ensures ks[j].index < ks[k].index
    {
      assert ks[j] == keys[j];
    }
  }

  /** The table with one more key registers part n under it when that part registers. */
  lemma TableNext(parts: seq<Component>, keys: seq<BodyId>, key: BodyId)
    requires |keys| < |parts|
    ensures TableUpTo(parts, keys + [key], |keys| + 1)
            == if Registers(parts[|keys|]) then TableUpTo(parts, keys, |keys|)[key := parts[|keys|]]
               else TableUpTo(parts, keys, |keys|)
  {
    TableUpToKeys(parts, keys, keys + [key], |keys|);
  }

  /** Installs and registers the next part. */
  method InstallNext(parts: seq<Component>, ghost before: seq<PartState>, i: nat, w: World, l: ContactListener, ghost keys: seq<BodyId>)
    returns (ghost key: BodyId)
    requires Distinct(parts) && i == |keys| < |parts| && Progress(parts, before, keys, w, l)
    modifies PartObject(parts[i]), w`bodyCount, l`table
    ensures Progress(parts, before, keys + [key], w, l)
  {
    ghost var count := w.bodyCount;
    key := BodyId(w.generation, count);
    TableNext(parts, keys, key);
    InstallAt(parts, before, i, w, l, keys, key);
    ProgressNext(parts, before, keys, key, w, l, count);
  }

  /** Installs and registers each of the parts in order, in world w and table l. */
  method InstallParts(parts: seq<Component>, w: World, l: ContactListener)
    requires Distinct(parts)
    requires forall i :: 0 <= i < |parts| ==> PartValid(parts[i])
    requires l.table == map[]
    modifies PartObjects(parts), w`bodyCount, l`table
    ensures forall i :: 0 <= i < |parts| ==> PartInstalled(parts[i], w) && PartValid(parts[i])
    ensures forall c :: c in parts ==> StateOf(c) == Reinstalled(old(StateOf(c)))
    ensures InstallOrder(parts, w)
    ensures Routed(parts, l)
    ensures forall b :: b in l.table ==> b.generation == w.generation && l.table[b] in parts
    ensures w.steps == old(w.steps) && w.listener == old(w.listener)
  {
    ghost var before := seq(|parts|, j requires 0 <= j < |parts| reads PartObjects(parts) => StateOf(parts[j]));
    assert forall j :: 0 <= j < |parts| ==> before[j] == StateOf(parts[j]);
    ghost var keys: seq<BodyId> := [];
    forall j | 0 <= j < |parts|
      ensures PartObject(parts[j]) != w && PartObject(parts[j]) != l
    {
      PartObjectIsPart(parts[j], w, l);
    }
    var i := 0;
    while i < |parts|
      invariant 0 <= i <= |parts| && |keys| == i
      invariant Progress(parts, before, keys, w, l)
    {
      assert PartObject(parts[i]) in PartObjects(parts);
      ghost var key := InstallNext(parts, before, i, w, l, keys);
      keys := keys + [key];
      i := i + 1;
    }
    ProgressComplete(parts, before, keys, w, l);
    forall c | c in parts
      ensures StateOf(c) == Reinstalled(old(StateOf(c)))
    {
      var j :| 0 <= j < |parts| && parts[j] == c;
    }
  }

  /** Universe u holds every component of cs, and every pulley, conveyor, body, hamster and goal of u is one. */
  ghost predicate Covers(u: Universe, cs: seq<Component>)
  {
    (forall i :: 0 <= i < |cs| ==> PartIn(u, cs[i]))
    && (forall h :: h in u.hamsters ==> HamsterPart(h) in cs)
    && (forall p :: p in u.pulleys ==> PulleyPart(p) in cs)
    && (forall v :: v in u.conveyors ==> ConveyorPart(v) in cs)
    && (forall g :: g in u.goals ==> GoalPart(g) in cs)
    && (forall b :: b in u.bodies ==> BodyPart(b) in cs)
  }

  /** The components of a covered universe keep their own invariants when its hamsters, pulleys and goals do. */
  lemma CoveredPartsValid(u: Universe, cs: seq<Component>)
    requires Covers(u, cs) && HamstersValid(u) && PulleysInBand(u) && GoalsValid(u)
    ensures forall i :: 0 <= i < |cs| ==> PartValid(cs[i])
  {
  }

  /**
   * Once every component is installed in w and keeps its invariant, so does
   * every object of the universe that covers them.
   */
  lemma CoveredInstalled(u: Universe, cs: seq<Component>, w: World)
    requires Covers(u, cs)
    requires forall i :: 0 <= i < |cs| ==> PartInstalled(cs[i], w) && PartValid(cs[i])
    ensures Installed(u, w) && HamstersValid(u) && PulleysInBand(u) && GoalsValid(u)
  {
    forall h | h in u.hamsters
      ensures h.world == w && h.Valid()
    {
      var i :| 0 <= i < |cs| && cs[i] == HamsterPart(h);
    }
    forall p | p in u.pulleys
      ensures p.RockingInBand()
    {
      var i :| 0 <= i < |cs| && cs[i] == PulleyPart(p);
    }
    forall v | v in u.conveyors
      ensures v.world == w
    {
      var i :| 0 <= i < |cs| && cs[i] == ConveyorPart(v);
    }
    forall g | g in u.goals
      ensures g.world == w && g.Valid()
    {
      var i :| 0 <= i < |cs| && cs[i] == GoalPart(g);
    }
    forall b | b in u.bodies
      ensures b.world == w
    {
      var i :| 0 <= i < |cs| && cs[i] == BodyPart(b);
    }
  }

  /** A rotation source is never the object of a component. */
  lemma SourcesAreNotParts(u: Universe, cs: seq<Component>)
    ensures forall s :: s in u.sources ==> s !in PartObjects(cs)
  {
    forall s | s in u.sources && s in PartObjects(cs)
      ensures false
    {
      var i :| 0 <= i < |cs| && PartObject(cs[i]) == s;
      match cs[i] {
        case HamsterPart(h) =>
        case PulleyPart(p) =>
        case ConveyorPart(v) =>
        case GoalPart(g) =>
        case BodyPart(b) =>
      }
    }
  }

  /** A machine is never the object of a component. */
  lemma MachineIsNotPart(m: Machine, cs: seq<Component>)
    ensures m !in PartObjects(cs)
  {
    if m in PartObjects(cs) {
      var i :| 0 <= i < |cs| && PartObject(cs[i]) == m;
      match cs[i] {
        case HamsterPart(h) =>
        case PulleyPart(p) =>
        case ConveyorPart(v) =>
        case GoalPart(g) =>
        case BodyPart(b) =>
      }
    }
  }

  /**
   * Installs and registers the parts in order in world w and its empty
   * contact listener l. Every object of a universe covering the parts ends
   * up in w with its invariant; installing changes only what Reinstalled
   * says, and leaves the drive graph as it was.
   */
  method InstallIn(parts: seq<Component>, w: World, l: ContactListener, ghost u: Universe)
    requires Distinct(parts) && Covers(u, parts) && l.table == map[]
    requires HamstersValid(u) && PulleysInBand(u) && GoalsValid(u)
    modifies PartObjects(parts), w`bodyCount, l`table
    ensures forall i :: 0 <= i < |parts| ==> PartInstalled(parts[i], w)
    ensures forall c :: c in parts ==> StateOf(c) == Reinstalled(old(StateOf(c)))
    ensures Installed(u, w) && HamstersValid(u) && PulleysInBand(u) && GoalsValid(u)
    ensures old(Wired(u)) ==> Wired(u)
    ensures InstallOrder(parts, w)
    ensures Routed(parts, l)
    ensures forall b :: b in l.table ==> b.generation == w.generation && l.table[b] in parts
    ensures w.steps == old(w.steps) && w.listener == old(w.listener)
  {
    CoveredPartsValid(u, parts);
    SourcesAreNotParts(u, parts);
    InstallParts(parts, w, l);
    CoveredInstalled(u, parts, w);
  }

  /**
   * Creates a world of the given generation and an empty contact listener,
   * installs the listener on the world, and then installs and registers the
   * parts in order.
   */
  method InstallWorld(parts: seq<Component>, generation: nat, ghost u: Universe) returns (w: World, l: ContactListener)
    requires Distinct(parts) && Covers(u, parts)
    requires HamstersValid(u) && PulleysInBand(u) && GoalsValid(u)
    modifies PartObjects(parts)
    ensures fresh(w) && fresh(l) && w.generation == generation && w.steps == [] && w.listener == l
    ensures forall i :: 0 <= i < |parts| ==> PartInstalled(parts[i], w)
    ensures forall c :: c in parts ==> StateOf(c) == Reinstalled(old(StateOf(c)))
    ensures Installed(u, w) && HamstersValid(u) && PulleysInBand(u) && GoalsValid(u)
    ensures old(Wired(u)) ==> Wired(u)
    ensures InstallOrder(parts, w)
    ensures Routed(parts, l)
    ensures forall b :: b in l.table ==> b.generation == w.generation && l.table[b] in parts
  {
    w := new World(generation);
    assert forall c :: c in parts ==> StateOf(c) == old(StateOf(c));
    l := new ContactListener();
    assert forall c :: c in parts ==> StateOf(c) == old(StateOf(c));
    w.SetContactListener(l);
    assert forall c :: c in parts ==> StateOf(c) == old(StateOf(c));
    InstallIn(parts, w, l, u);
  }

  class Machine {
    const number: int
    var components: seq<Component>
    var world: World
    var listener: ContactListener?
    /** The objects of the components and their rotation sources. */
    ghost var parts: Universe

    constructor (number: int)
      ensures this.number == number && GetMachine() == number && components == [] && listener == null
      ensures fresh(world) && world.generation == 0 && world.steps == [] && world.listener == null
      ensures parts == EmptyUniverse
      ensures Valid()
    {
      this.number := number;
      components := [];
      world := new World(0);
      listener := null;
      parts := EmptyUniverse;
    }

    /** The number of the machine. */
    function GetMachine(): int
    {
      number
    }

    /** The universe holds exactly the components and their rotation sources. */
    ghost predicate Valid()
      reads this`parts, this`components
    {
      Covers(parts, components)
    }

    /**
     * What running the machine does not change: the universe holds the
     * components, the drive graph is wired and ranked, every body is in the
     * current world, and pulleys and goals keep their invariants.
     */
    ghost predicate Settled()
      reads this`parts, this`components, this`world, parts.sources`sinks
      reads parts.conveyors`world, parts.bodies`world, parts.hamsters`world, parts.goals`world
      reads parts.pulleys`rocking, parts.pulleys`increasing, parts.goals`score, parts.goals`events
    {
      Valid() && Wired(parts) && Installed(parts, world) && PulleysInBand(parts) && GoalsValid(parts)
    }

    /** Ready to run: settled, and every hamster keeps its image invariant. */
    ghost predicate Ready()
      reads this`parts, this`components, this`world, parts.sources`sinks
      reads parts.conveyors`world, parts.bodies`world, parts.hamsters`world, parts.goals`world
      reads parts.pulleys`rocking, parts.pulleys`increasing, parts.goals`score, parts.goals`events
      reads parts.hamsters`index, parts.hamsters`running, parts.hamsters`rotation
    {
      Settled() && HamstersValid(parts)
    }

    /** Adds a component and records this machine as its machine. */
    method AddComponent(c: Component)
      requires Valid()
      modifies this`components, this`parts, Base(c)`machine
      ensures components == old(components) + [c]
      ensures parts == WithPart(old(parts), c)
      ensures MachineOf(c) == this
      ensures Valid()
    {
      components := components + [c];
      parts := WithPart(parts, c);
      Base(c).SetMachine(this);
    }

    /**
     * Updates every component in order, then steps the physics world once
     * with the fixed iteration counts. Each hamster turns its wheel once per
     * time it was added.
     */
    method Update(elapsed: real)
      requires Ready()
      modifies parts.hamsters`rotation, parts.hamsters`index
      modifies parts.sources`rotation, parts.sources`speed
      modifies parts.pulleys`rotation, parts.pulleys`previous, parts.conveyors`speed
      modifies world`linearVelocity, world`angularVelocity, world`steps, world`contactLists
      ensures Ready()
      ensures forall h :: h in parts.hamsters ==> Turned(h, old(Wheel(h)), elapsed, Occurrences(components, HamsterPart(h)))
      ensures world.steps == old(world.steps) + [TimeStep(elapsed, VelocityIterations, PositionIterations)]
    {
      UpdateParts(components, elapsed, parts, world);
      assert Settled();
      world.Step(elapsed, VelocityIterations, PositionIterations);
      assert Settled();
    }

    /**
     * Replaces the world and the contact listener with fresh ones, installs
     * the listener on the new world, and then installs and registers every
     * component in order. The wheels, the gear state, the belts and the
     * conveyor speeds are kept.
     */
    method Reset()
      requires Valid() && HamstersValid(parts) && PulleysInBand(parts) && GoalsValid(parts)
      requires Distinct(components)
      modifies this`world, this`listener, PartObjects(components)
      ensures fresh(world) && world.generation == old(world.generation) + 1
      ensures world.steps == [] && listener != null && fresh(listener) && world.listener == listener
      ensures components == old(components) && parts == old(parts)
      ensures forall i :: 0 <= i < |components| ==> PartInstalled(components[i], world)
      ensures Valid() && Installed(parts, world) && HamstersValid(parts) && PulleysInBand(parts) && GoalsValid(parts)
      ensures old(Wired(parts)) ==> Ready()
      ensures forall c :: c in components ==> StateOf(c) == Reinstalled(old(StateOf(c)))
      ensures InstallOrder(components, world)
      ensures Routed(components, listener)
      ensures forall b :: b in listener.table ==> b.generation == world.generation && listener.table[b] in components
    {
      MachineIsNotPart(this, components);
      var w, l := InstallWorld(components, world.generation + 1, parts);
      world := w;
      listener := l;
    }

    /** Draws every component once, in order. Each pulley is drawn once per time it was added. */
    method DrawMachine()
      requires Ready()
      modifies parts.pulleys`rocking, parts.pulleys`increasing
      ensures Ready()
      ensures forall p :: p in parts.pulleys ==> Drawn(p, old(Rock(p)), Occurrences(components, PulleyPart(p)))
    {
      DrawParts(components, parts);
    }
  }
}
