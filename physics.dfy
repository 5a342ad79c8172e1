/**
 * Stand-ins for the rigid-body engine the machine runs on. The engine itself
 * (integration, collision detection, callback dispatch) is opaque: a world is
 * a generation number, a log of the steps it was asked to take, a body
 * counter, and the contact and velocity tables that the engine owns.
 */
module Physics {

  /** A body handle tagged with the generation (world instance) that made it. */
  datatype BodyId = BodyId(generation: nat, index: nat)

  datatype Vec2 = Vec2(x: real, y: real)

  /** One entry of a body's contact list: is the contact touching, and whose body is on the other side. */
  datatype ContactEdge = ContactEdge(touching: bool, other: BodyId)

  /** The arguments of one call to the world's Step. */
  datatype TimeStep = TimeStep(elapsed: real, velocityIterations: int, positionIterations: int)

  /** Repeat(s, n) is n copies of the step s. */
  function Repeat(s: TimeStep, n: nat): (r: seq<TimeStep>)
    ensures |r| == n
    ensures forall i :: 0 <= i < n ==> r[i] == s
  {
    if n == 0 then [] else Repeat(s, n - 1) + [s]
  }

  /** n + m copies of a step are n copies followed by m copies. */
  lemma {:induction false} RepeatAppend(s: TimeStep, n: nat, m: nat)
    ensures Repeat(s, n + m) == Repeat(s, n) + Repeat(s, m)
  {
    if m > 0 {
      RepeatAppend(s, n, m - 1);
    }
  }

  /** A contact between two bodies, as the engine hands it to a pre-solve callback. */
  class Contact {
    var enabled: bool
    var tangentSpeed: real

    constructor ()
      ensures enabled && tangentSpeed == 0.0
    {
      enabled := true;
      tangentSpeed := 0.0;
    }
  }

  class World {
    const generation: nat
    var steps: seq<TimeStep>
    var bodyCount: nat
    var listener: object?
    var contactLists: map<BodyId, seq<ContactEdge>>
    var linearVelocity: map<BodyId, Vec2>
    var angularVelocity: map<BodyId, real>

    constructor (generation: nat)
      ensures this.generation == generation
      ensures steps == [] && bodyCount == 0 && listener == null
      ensures contactLists == map[] && linearVelocity == map[] && angularVelocity == map[]
    {
      this.generation := generation;
      steps := [];
      bodyCount := 0;
      listener := null;
      contactLists := map[];
      linearVelocity := map[];
      angularVelocity := map[];
    }

    /** The contact list of body b; a body the engine reports nothing for has none. */
    function ContactList(b: BodyId): seq<ContactEdge>
      reads this`contactLists
    {
      if b in contactLists then contactLists[b] else []
    }

    /** Adds a body to this world and returns its handle. */
    method CreateBody() returns (b: BodyId)
      modifies this`bodyCount
      ensures b == BodyId(generation, old(bodyCount))
      ensures bodyCount == old(bodyCount) + 1
    {
      b := BodyId(generation, bodyCount);
      bodyCount := bodyCount + 1;
    }

    method SetLinearVelocity(b: BodyId, v: Vec2)
      modifies this`linearVelocity
      ensures linearVelocity == old(linearVelocity)[b := v]
    {
      linearVelocity := linearVelocity[b := v];
    }

    method SetAngularVelocity(b: BodyId, omega: real)
      modifies this`angularVelocity
      ensures angularVelocity == old(angularVelocity)[b := omega]
    {
      angularVelocity := angularVelocity[b := omega];
    }

    method SetContactListener(l: object)
      modifies this`listener
      ensures listener == l
    {
      listener := l;
    }

    /**
     * Advances the simulation by one step. What the engine does to contacts
     * and velocities is not modelled: those tables take arbitrary new values.
     */
    method Step(elapsed: real, velocityIterations: int, positionIterations: int)
      modifies this`steps, this`contactLists, this`linearVelocity, this`angularVelocity
      ensures steps == old(steps) + [TimeStep(elapsed, velocityIterations, positionIterations)]
    {
      steps := steps + [TimeStep(elapsed, velocityIterations, positionIterations)];
      contactLists := *;
      linearVelocity := *;
      angularVelocity := *;
    }
  }
}
