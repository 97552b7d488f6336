/**
 * The physics engine as the simulation sees it: a world holding bodies, each a
 * polygon of point masses with the components that drive it. The integrator
 * itself belongs to the engine; the model keeps only what the simulation relies
 * on: an update leaves every body's configuration and vertex count alone and
 * counts the call.
 */
module Physics {
  import opened JSMath

  /** A point mass is finite, or infinite for a body that never moves. */
  datatype Mass = Finite(value: real) | Infinite

  /** The force and deformation components a body can be created with. */
  datatype Component =
    | Spring(shapeMatching: bool, edgeSpringK: real, edgeSpringDamp: real, shapeSpringK: real, shapeSpringDamp: real)
    | Pressure(gasAmount: real)
    | Gravity

  /** A spring between two point masses of the same body. */
  datatype InternalSpring = InternalSpring(pointA: nat, pointB: nat, springK: real, damping: real)

  /** A body as created, plus where its point masses are now and how many updates it has seen. */
  datatype Body = Body(
    position: Point,
    vertices: seq<Point>,
    pointMasses: seq<Mass>,
    components: seq<Component>,
    internalSprings: seq<InternalSpring>,
    isKinematic: bool,
    isPinned: bool,
    updates: nat)

  /** `after` is `before` after `k` more updates: it may have moved, nothing else changed. */
  predicate SteppedBody(before: Body, after: Body, k: nat)
  {
    |after.vertices| == |before.vertices| &&
    after == before.(position := after.position, vertices := after.vertices, updates := before.updates + k)
  }

  /** The same bodies, in the same order, each after `k` more updates. */
  predicate Stepped(before: seq<Body>, after: seq<Body>, k: nat)
  {
    |after| == |before| &&
    forall i :: 0 <= i < |before| ==> SteppedBody(before[i], after[i], k)
  }

  /** `j` updates followed by `k` more are `j + k` updates. */
  lemma SteppedCompose(a: seq<Body>, b: seq<Body>, c: seq<Body>, j: nat, k: nat)
    requires Stepped(a, b, j) && Stepped(b, c, k)
    ensures Stepped(a, c, j + k)
  {
  }

  /** The engine's world: its bodies in insertion order and the time step of every update so far. */
  class World {
    var bodies: seq<Body>
    var steps: seq<real>

    constructor ()
      ensures bodies == [] && steps == []
    {
      bodies := [];
      steps := [];
    }

    /** One integration step of `dt`. */
    method Update(dt: real)
      modifies this
      ensures steps == old(steps) + [dt]
      ensures Stepped(old(bodies), bodies, 1)
    {
      var current := bodies;
      bodies := seq(|current|, i requires 0 <= i < |current| => current[i].(updates := current[i].updates + 1));
      steps := steps + [dt];
    }

    /** A newly created body joins the world at the end. */
    method AddBody(body: Body)
      modifies this
      ensures bodies == old(bodies) + [body]
      ensures steps == old(steps)
    {
      bodies := bodies + [body];
    }
  }
}
