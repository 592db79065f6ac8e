/**
 * The entities the sandbox keeps: points, the labelled bodies of the physics
 * world (balls, lines and the walls of the canvas), free spawners and musical
 * spawners, with the list searches and removals the handlers use on them.
 */
module World {
  import opened Config

  /** A canvas point or a displacement (matter-js Vector). */
  datatype Vec = Vec(x: real, y: real)

  function Sub(a: Vec, b: Vec): Vec { Vec(a.x - b.x, a.y - b.y) }

  /** The square of |p - q|; comparing squares avoids the square root of Vector.magnitude. */
  function SquaredDistance(p: Vec, q: Vec): (d: real)
    ensures d >= 0.0
  {
    var v := Sub(p, q);
    assert v.x * v.x >= 0.0 && v.y * v.y >= 0.0;
    v.x * v.x + v.y * v.y
  }

  /** `m` is Vector.magnitude(v): the non-negative square root of v.x² + v.y². */
  ghost predicate IsMagnitude(v: Vec, m: real) {
    m >= 0.0 && m * m == v.x * v.x + v.y * v.y
  }

  /**
   * A body of the physics world, told apart by its label. A line keeps its
   * centre, its customLength, its orientation as a unit direction vector and
   * the template it was drawn with; walls are every other body.
   */
  datatype Body =
    | Ball(id: nat, position: Vec)
    | Line(id: nat, center: Vec, length: real, direction: Vec, template: LineTemplate)
    | Wall(id: nat)

  /** A free spawner, which drops a ball on every tick of the spawn timer. */
  datatype Spawner = Spawner(id: nat, position: Vec)

  /** The point above a scale key from which playback drops that key's balls. */
  datatype MusicalSpawner = MusicalSpawner(id: nat, position: Vec, note: Note)

  /** A right-click deletes a spawner whose centre lies closer than this. */
  const DELETE_RADIUS: real := 12.0

  /** |p - q| < 12, written on squares. */
  predicate Near(p: Vec, q: Vec) {
    SquaredDistance(p, q) < DELETE_RADIUS * DELETE_RADIUS
  }

  /** Array.prototype.findIndex: the first index whose element satisfies `pred`, or -1. */
  function FindIndex<T>(s: seq<T>, pred: T -> bool): (k: int)
    ensures -1 <= k < |s|
    ensures k >= 0 ==> pred(s[k]) && forall j :: 0 <= j < k ==> !pred(s[j])
    ensures k == -1 ==> forall j :: 0 <= j < |s| ==> !pred(s[j])
  {
    if |s| == 0 then -1
    else if pred(s[0]) then 0
    else
      var k := FindIndex(s[1..], pred);
      assert forall j :: 1 <= j < |s| ==> s[j] == s[1..][j - 1];
      if k == -1 then -1 else k + 1
  }

  /** Array.prototype.splice(i, 1): the sequence without its element at `i`. */
  function RemoveAt<T>(s: seq<T>, i: nat): (r: seq<T>)
    requires i < |s|
    ensures |r| == |s| - 1
    ensures forall j :: 0 <= j < i ==> r[j] == s[j]
    ensures forall j :: i <= j < |r| ==> r[j] == s[j + 1]
  {
    s[..i] + s[i + 1..]
  }

  predicate IsBallOrLine(b: Body) { b.Ball? || b.Line? }

  /** Identities strictly increase along the list, as they do when bodies are only ever appended with fresh ones. */
  ghost predicate IdsIncrease(bodies: seq<Body>) {
    forall i, j :: 0 <= i < j < |bodies| ==> bodies[i].id < bodies[j].id
  }

  /** Every identity in the list was handed out before the counter reached `next`. */
  ghost predicate IdsBelow(bodies: seq<Body>, next: nat) {
    forall b :: b in bodies ==> b.id < next
  }

  /** What clearAll leaves of the world: every body that is neither a ball nor a line, in order. */
  function WithoutBallsAndLines(bodies: seq<Body>): (r: seq<Body>)
    ensures forall b :: b in r <==> b in bodies && !IsBallOrLine(b)
  {
    if |bodies| == 0 then []
    else
      var rest := WithoutBallsAndLines(bodies[1..]);
      assert bodies == [bodies[0]] + bodies[1..];
      if IsBallOrLine(bodies[0]) then rest else [bodies[0]] + rest
  }

  /** Composite.remove of the body with identity `id`: the bodies without it, in order. */
  function WithoutBody(bodies: seq<Body>, id: nat): (r: seq<Body>)
    ensures forall b :: b in r <==> b in bodies && b.id != id
  {
    if |bodies| == 0 then []
    else
      var rest := WithoutBody(bodies[1..], id);
      assert bodies == [bodies[0]] + bodies[1..];
      if bodies[0].id == id then rest else [bodies[0]] + rest
  }

  /** A body below every identity of an increasing list can go in front of it. */
  lemma ConsIncrease(b: Body, rest: seq<Body>)
    requires IdsIncrease(rest) && forall x :: x in rest ==> b.id < x.id
    ensures IdsIncrease([b] + rest)
  {
    var r := [b] + rest;
    forall i, j | 0 <= i < j < |r| ensures r[i].id < r[j].id {
      assert r[j] == rest[j - 1] && r[j] in rest;
      if i > 0 { assert r[i] == rest[i - 1]; }
    }
  }

  lemma TailIncrease(bodies: seq<Body>)
    requires IdsIncrease(bodies) && |bodies| > 0
    ensures IdsIncrease(bodies[1..]) && forall x :: x in bodies[1..] ==> bodies[0].id < x.id
  {
    forall x | x in bodies[1..] ensures bodies[0].id < x.id {
      var k :| 0 <= k < |bodies[1..]| && bodies[1..][k] == x;
      assert bodies[k + 1] == x;
    }
  }

  /** clearAll keeps the surviving bodies in their order. */
  lemma {:induction false} WithoutBallsAndLinesKeepsOrder(bodies: seq<Body>)
    requires IdsIncrease(bodies)
    ensures IdsIncrease(WithoutBallsAndLines(bodies))
  {
    if |bodies| > 0 {
      TailIncrease(bodies);
      WithoutBallsAndLinesKeepsOrder(bodies[1..]);
      if !IsBallOrLine(bodies[0]) {
        ConsIncrease(bodies[0], WithoutBallsAndLines(bodies[1..]));
      }
    }
  }

  /** Removing a body keeps the others in their order. */
  lemma {:induction false} WithoutBodyKeepsOrder(bodies: seq<Body>, id: nat)
    requires IdsIncrease(bodies)
    ensures IdsIncrease(WithoutBody(bodies, id))
  {
    if |bodies| > 0 {
      TailIncrease(bodies);
      WithoutBodyKeepsOrder(bodies[1..], id);
      if bodies[0].id != id {
        ConsIncrease(bodies[0], WithoutBody(bodies[1..], id));
      }
    }
  }

  /** Removing a body that is already gone changes nothing. */
  lemma {:induction false} WithoutAbsentBody(bodies: seq<Body>, id: nat)
    requires forall b :: b in bodies ==> b.id != id
    ensures WithoutBody(bodies, id) == bodies
  {
    if |bodies| > 0 {
      assert bodies == [bodies[0]] + bodies[1..];
      WithoutAbsentBody(bodies[1..], id);
    }
  }

  /** With distinct identities, removing a body that is there removes exactly that one. */
  lemma {:induction false} WithoutPresentBody(bodies: seq<Body>, id: nat)
    requires IdsIncrease(bodies) && exists b :: b in bodies && b.id == id
    ensures |WithoutBody(bodies, id)| == |bodies| - 1
  {
    TailIncrease(bodies);
    assert bodies == [bodies[0]] + bodies[1..];
    if bodies[0].id == id {
      WithoutAbsentBody(bodies[1..], id);
    } else {
      WithoutPresentBody(bodies[1..], id);
    }
  }

  /**
   * Spawner identities come from one counter: the musical spawners of the
   * current scale, then the free spawners added since, each list in
   * increasing order and all below the counter.
   */
  ghost predicate SpawnersOrdered(musical: seq<MusicalSpawner>, free: seq<Spawner>, next: nat) {
    && (forall i, j :: 0 <= i < j < |musical| ==> musical[i].id < musical[j].id)
    && (forall i, j :: 0 <= i < j < |free| ==> free[i].id < free[j].id)
    && (forall i, j :: 0 <= i < |musical| && 0 <= j < |free| ==> musical[i].id < free[j].id)
    && (forall i :: 0 <= i < |musical| ==> musical[i].id < next)
    && (forall j :: 0 <= j < |free| ==> free[j].id < next)
  }
}
