/**
 * What a turning conveyor does to the bodies lying on it: every body that is
 * touching the belt gets the linear velocity (-speed, 0).
 */
module ConveyorRules {
  import opened Physics

  /** Some touching entry of the contact list has b on its other side. */
  ghost predicate Touched(edges: seq<ContactEdge>, b: BodyId)
  {
    exists i :: 0 <= i < |edges| && edges[i].touching && edges[i].other == b
  }

  /** The belt velocity handed to a body on a conveyor turning at the given speed. */
  function BeltVelocity(speed: real): Vec2
  {
    Vec2(-speed, 0.0)
  }

  /**
   * The velocity table after walking the contact list in order and setting
   * the velocity of the other body of every touching contact.
   */
  function Transport(speed: real, edges: seq<ContactEdge>, velocity: map<BodyId, Vec2>): (r: map<BodyId, Vec2>)
    ensures forall b :: b in r <==> b in velocity || Touched(edges, b)
    ensures forall b :: Touched(edges, b) ==> r[b] == BeltVelocity(speed)
    ensures forall b :: b in velocity && !Touched(edges, b) ==> r[b] == velocity[b]
  {
    if edges == [] then velocity
    else
      var front := edges[..|edges| - 1];
      var e := edges[|edges| - 1];
      var m := Transport(speed, front, velocity);
      assert forall b :: Touched(edges, b) <==> Touched(front, b) || (e.touching && e.other == b) by {
        forall b
          ensures Touched(edges, b) ==> Touched(front, b) || (e.touching && e.other == b)
        {
          if Touched(edges, b) {
            var i :| 0 <= i < |edges| && edges[i].touching && edges[i].other == b;
            if i < |front| {
              assert front[i] == edges[i];
            }
          }
        }
        forall b | Touched(front, b)
          ensures Touched(edges, b)
        {
          var i :| 0 <= i < |front| && front[i].touching && front[i].other == b;
          assert edges[i] == front[i];
        }
        forall b | e.touching && e.other == b
          ensures Touched(edges, b)
        {
          assert edges[|edges| - 1] == e;
        }
      }
      if e.touching then m[e.other := BeltVelocity(speed)] else m
  }

  /** Walking the contact list a second time at the same speed changes nothing. */
  lemma TransportIdempotent(speed: real, edges: seq<ContactEdge>, velocity: map<BodyId, Vec2>)
    ensures Transport(speed, edges, Transport(speed, edges, velocity)) == Transport(speed, edges, velocity)
  {
    var once := Transport(speed, edges, velocity);
    var twice := Transport(speed, edges, once);
    assert forall b :: b in twice <==> b in once;
    assert forall b :: b in twice ==> twice[b] == once[b];
  }

  /** A conveyor with no touching contact leaves every velocity as it was. */
  lemma NothingTouchingNoEffect(speed: real, edges: seq<ContactEdge>, velocity: map<BodyId, Vec2>)
    requires forall i :: 0 <= i < |edges| ==> !edges[i].touching
    ensures Transport(speed, edges, velocity) == velocity
  {
    var r := Transport(speed, edges, velocity);
    assert forall b :: !Touched(edges, b);
    assert forall b :: b in r ==> r[b] == velocity[b];
  }
}
