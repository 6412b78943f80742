/** The particle network behind the hero animation
    (src/components/common/ParticleNetworkAnimation.tsx): one frame of a
    particle's motion, the pass that decides which pairs of particles are
    joined by a line, and the particle that follows the mouse. Positions and
    speeds are reals; random placement and drawing are left out. */
module Particles {
  import opened Options
  import opened Sequences

  datatype Vec = Vec(x: real, y: real)

  /** A particle. `id` stands for the object's identity, which the source
      compares by reference. */
  datatype Particle = Particle(id: nat, radius: real, opacity: real, x: real, y: real, velocity: Vec)

  datatype Canvas = Canvas(width: real, height: real)

  /** How far past an edge a particle may drift before it turns back. */
  const Margin: real := 100.0

  /** The opacity gained per frame. */
  const FadeStep: real := 0.01

  /** `options.netLineDistance`: the longest line drawn. */
  const NetLineDistance: real := 200.0

  function Abs(a: real): real {
    if a < 0.0 then -a else a
  }

  function Min(a: real, b: real): real {
    if a <= b then a else b
  }

  // ---------------------------------------------------------------------------
  // One frame of a particle (`Particle.update`)

  /** Whether `pos` lies outside `[-Margin, size + Margin]`. */
  predicate OutOfBand(pos: real, size: real) {
    pos > size + Margin || pos < -Margin
  }

  /** A velocity component, reversed when the position is out of band. */
  function Bounce(v: real, pos: real, size: real): (r: real)
    ensures Abs(r) == Abs(v)
    ensures r != v ==> OutOfBand(pos, size)
    ensures OutOfBand(pos, size) ==> r == -v
  {
    if OutOfBand(pos, size) then -v else v
  }

  /** `update`: fade in by one step up to full opacity, turn back if out of
      band, then move by the velocity. */
  function Update(p: Particle, c: Canvas): (r: Particle)
    ensures r.id == p.id && r.radius == p.radius
    ensures r.opacity <= 1.0
    ensures r.opacity == 1.0 || r.opacity == p.opacity + FadeStep
    ensures p.opacity + FadeStep <= 1.0 ==> r.opacity == p.opacity + FadeStep
    ensures p.opacity <= 1.0 ==> p.opacity <= r.opacity
    ensures 0.0 <= p.opacity ==> 0.0 <= r.opacity
    ensures Abs(r.velocity.x) == Abs(p.velocity.x) && Abs(r.velocity.y) == Abs(p.velocity.y)
    ensures r.x == p.x + r.velocity.x && r.y == p.y + r.velocity.y
  {
    var vx := Bounce(p.velocity.x, p.x, c.width);
    var vy := Bounce(p.velocity.y, p.y, c.height);
    p.(opacity := Min(p.opacity + FadeStep, 1.0), x := p.x + vx, y := p.y + vy, velocity := Vec(vx, vy))
  }

  /** A particle past the right or bottom edge that is moving further out
      turns back; likewise past the left or top edge. */
  lemma BounceTurnsBack(p: Particle, c: Canvas)
    ensures p.x > c.width + Margin && p.velocity.x > 0.0 ==> Update(p, c).velocity.x < 0.0
    ensures p.x < -Margin && p.velocity.x < 0.0 ==> Update(p, c).velocity.x > 0.0
    ensures p.y > c.height + Margin && p.velocity.y > 0.0 ==> Update(p, c).velocity.y < 0.0
    ensures p.y < -Margin && p.velocity.y < 0.0 ==> Update(p, c).velocity.y > 0.0
  {
  }

  /** `n` frames of one particle. */
  function Frames(p: Particle, c: Canvas, n: nat): Particle
    decreases n
  {
    if n == 0 then p else Update(Frames(p, c, n - 1), c)
  }

  /** After `n` frames a particle that started with an opacity in [0, 1] has
      gained `n` steps of opacity, capped at 1: a new particle is fully
      visible after 100 frames. */
  lemma {:induction false} FadeIn(p: Particle, c: Canvas, n: nat)
    requires 0.0 <= p.opacity <= 1.0
    ensures Frames(p, c, n).opacity == Min(p.opacity + n as real * FadeStep, 1.0)
    decreases n
  {
    if n > 0 {
      FadeIn(p, c, n - 1);
    }
  }

  /** `particles[i].update()` for every particle. */
  function UpdateAll(particles: seq<Particle>, c: Canvas): (r: seq<Particle>)
    ensures |r| == |particles|
    ensures forall i :: 0 <= i < |r| ==> r[i] == Update(particles[i], c)
  {
    seq(|particles|, i requires 0 <= i < |particles| => Update(particles[i], c))
  }

  // ---------------------------------------------------------------------------
  // The connection pass (`ParticleNetwork.update`)

  function Square(a: real): real {
    a * a
  }

  /** Two particles are joined when their distance is at most `d`; with a
      non-negative `d`, comparing squares is the same as comparing the square
      root of the sum with `d`. */
  predicate Near(p1: Particle, p2: Particle, d: real) {
    Square(p1.x - p2.x) + Square(p1.y - p2.y) <= Square(d)
  }

  /** The cheap test is sound: when both coordinates differ by more than `d`
      (the smaller difference exceeds `d`), so does the distance, so skipping
      such a pair never loses a line. */
  lemma PrefilterSound(dx: real, dy: real, d: real)
    requires 0.0 <= d
    requires Min(Abs(dx), Abs(dy)) > d
    ensures Square(dx) + Square(dy) > Square(d)
  {
    assert Square(dx) == Abs(dx) * Abs(dx) && Square(dy) == Abs(dy) * Abs(dy);
    SquareGrows(d, Abs(dx));
    SquareGrows(d, Abs(dy));
  }

  /** Squaring is increasing on the non-negative reals. */
  lemma SquareGrows(a: real, b: real)
    requires 0.0 <= a < b
    ensures a * a < b * b
  {
    ProductPositive(b - a, b + a);
    assert (b - a) * (b + a) == b * b - a * a;
  }

  lemma ProductPositive(u: real, v: real)
    requires u > 0.0 && v > 0.0
    ensures u * v > 0.0
  {
  }

  /** The inner loop for particle `i`: partners from the last particle down
      to `i + 1`. Returns the pairs examined, in order, and the pairs joined. */
  method ScanRow(ps: seq<Particle>, i: nat, d: real) returns (visited: seq<(nat, nat)>, lines: seq<(nat, nat)>)
    requires 0.0 <= d && i < |ps|
    ensures |visited| == |ps| - 1 - i
    ensures forall k :: 0 <= k < |visited| ==> visited[k] == (i, |ps| - 1 - k)
    ensures forall p :: p in lines <==> p.0 == i && i < p.1 < |ps| && Near(ps[i], ps[p.1], d)
    ensures Distinct(lines)
  {
    visited, lines := [], [];
    var j := |ps| - 1;
    while j > i
      invariant i <= j < |ps|
      invariant |visited| == |ps| - 1 - j
      invariant forall k :: 0 <= k < |visited| ==> visited[k] == (i, |ps| - 1 - k)
      invariant forall p :: p in lines <==> p.0 == i && j < p.1 < |ps| && Near(ps[i], ps[p.1], d)
      invariant forall k :: 0 <= k < |lines| ==> lines[k].1 > j
      invariant Distinct(lines)
      decreases j
    {
      visited := visited + [(i, j)];
      var dx := ps[i].x - ps[j].x;
      var dy := ps[i].y - ps[j].y;
      if Min(Abs(dx), Abs(dy)) > d {
        PrefilterSound(dx, dy, d);
      } else if Square(dx) + Square(dy) > Square(d) {
      } else {
        lines := lines + [(i, j)];
      }
      j := j - 1;
    }
  }

  /** The whole pass: every unordered pair `{i, j}` is examined exactly once,
      as `(i, j)` with `i < j`, and joined exactly when the particles are near. */
  method Connections(ps: seq<Particle>, d: real) returns (visited: seq<(nat, nat)>, lines: seq<(nat, nat)>)
    requires 0.0 <= d
    ensures forall p :: p in visited <==> p.0 < p.1 < |ps|
    ensures Distinct(visited)
    ensures forall p :: p in lines <==> p.0 < p.1 < |ps| && Near(ps[p.0], ps[p.1], d)
    ensures Distinct(lines)
  {
    visited, lines := [], [];
    var i := 0;
    while i < |ps|
      invariant 0 <= i <= |ps|
      invariant forall p :: p in visited <==> p.0 < i && p.0 < p.1 < |ps|
      invariant Distinct(visited)
      invariant forall p :: p in lines <==> p.0 < i && p.0 < p.1 < |ps| && Near(ps[p.0], ps[p.1], d)
      invariant Distinct(lines)
    {
      var rowVisited, rowLines := ScanRow(ps, i, d);
      forall p: (nat, nat) | p.0 == i && i < p.1 < |ps|
        ensures p in rowVisited
      {
        assert rowVisited[|ps| - 1 - p.1] == p;
      }
      DistinctRow(rowVisited, i, |ps|);
      DistinctConcat(visited, rowVisited, i);
      DistinctConcat(lines, rowLines, i);
      visited, lines := visited + rowVisited, lines + rowLines;
      i := i + 1;
    }
  }

  /** One animation frame: the lines are chosen from the positions before
      the frame, with the page's line distance, and only then does every
      particle move. */
  method Frame(ps: seq<Particle>, c: Canvas) returns (lines: seq<(nat, nat)>, next: seq<Particle>)
    ensures forall p :: p in lines <==> p.0 < p.1 < |ps| && Near(ps[p.0], ps[p.1], NetLineDistance)
    ensures Distinct(lines)
    ensures |next| == |ps| && forall i :: 0 <= i < |ps| ==> next[i] == Update(ps[i], c)
  {
    var _, joined := Connections(ps, NetLineDistance);
    lines := joined;
    next := UpdateAll(ps, c);
  }

  /** The pairs examined for one row are all different. */
  lemma DistinctRow(row: seq<(nat, nat)>, i: nat, n: nat)
    requires |row| == n - 1 - i
    requires forall k :: 0 <= k < |row| ==> row[k] == (i, n - 1 - k)
    ensures Distinct(row)
  {
  }

  /** Appending a row of pairs that all start at `i` to pairs that all start
      before `i` keeps the pairs distinct. */
  lemma DistinctConcat(a: seq<(nat, nat)>, b: seq<(nat, nat)>, i: nat)
    requires Distinct(a) && Distinct(b)
    requires forall p :: p in a ==> p.0 < i
    requires forall p :: p in b ==> p.0 == i
    ensures Distinct(a + b)
  {
    forall x, y | 0 <= x < y < |a + b|
      ensures (a + b)[x] != (a + b)[y]
    {
      if x < |a| && y >= |a| {
        assert (a + b)[x] in a && (a + b)[y] in b;
      }
    }
  }

  // ---------------------------------------------------------------------------
  // The mouse particle

  /** The network's particle list, the mouse particle if any, and the
      next unused identity. */
  datatype Network = Network(particles: seq<Particle>, interaction: Option<nat>, nextId: nat)

  /** Every particle has its own identity, below `nextId`. */
  predicate Valid(net: Network) {
    && (forall i :: 0 <= i < |net.particles| ==> net.particles[i].id < net.nextId)
    && (forall i, j :: 0 <= i < j < |net.particles| ==> net.particles[i].id != net.particles[j].id)
  }

  /** `particles.indexOf(particle)`: the first position holding `id`, or -1. */
  function IndexOf(ps: seq<Particle>, id: nat): (r: int)
    ensures -1 <= r < |ps|
    ensures r == -1 <==> forall i :: 0 <= i < |ps| ==> ps[i].id != id
    ensures r >= 0 ==> ps[r].id == id && forall i :: 0 <= i < r ==> ps[i].id != id
    decreases |ps|
  {
    if ps == [] then -1
    else if ps[0].id == id then 0
    else
      var r := IndexOf(ps[1..], id);
      if r == -1 then -1 else r + 1
  }

  /** `createInteractionParticle`: a new, still particle at the end of the
      list, recorded as the mouse's. Its position and size are the random
      choices of the source, given here as parameters. */
  function CreateInteraction(net: Network, x: real, y: real, radius: real): (r: (Network, Particle))
    ensures r.0.particles == net.particles + [r.1]
    ensures r.1.velocity == Vec(0.0, 0.0) && r.1.opacity == 0.0
    ensures r.0.interaction == Some(r.1.id)
    ensures Valid(net) ==> Valid(r.0)
  {
    var p := Particle(net.nextId, radius, 0.0, x, y, Vec(0.0, 0.0));
    (Network(net.particles + [p], Some(p.id), net.nextId + 1), p)
  }

  /** `removeInteractionParticle`: when the mouse particle is in the list,
      it is taken out and forgotten; otherwise nothing changes, and a recorded
      particle that is not in the list stays recorded. */
  function RemoveInteraction(net: Network): (r: Network)
    ensures net.interaction.None? ==> r == net
    ensures net.interaction.Some? && IndexOf(net.particles, net.interaction.value) == -1 ==> r == net
    ensures net.interaction.Some? && IndexOf(net.particles, net.interaction.value) >= 0 ==>
      var k := IndexOf(net.particles, net.interaction.value);
      && r.interaction.None? && r.nextId == net.nextId
      && r.particles == net.particles[..k] + net.particles[k + 1..]
    ensures Valid(net) ==> Valid(r)
  {
    match net.interaction
    case None => net
    case Some(id) =>
      var index := IndexOf(net.particles, id);
      if index > -1 then
        RemoveAtKeepsValid(net, index);
        Network(net.particles[..index] + net.particles[index + 1..], None, net.nextId)
      else net
  }

  /** Taking one particle out of a valid network keeps it valid. */
  lemma RemoveAtKeepsValid(net: Network, k: nat)
    requires k < |net.particles|
    ensures Valid(net) ==> Valid(Network(net.particles[..k] + net.particles[k + 1..], None, net.nextId))
  {
    var rest := net.particles[..k] + net.particles[k + 1..];
    assert forall i :: 0 <= i < |rest| ==> rest[i] == net.particles[if i < k then i else i + 1];
  }

  /** Removing the mouse particle right after creating it gives back the
      original list and leaves no mouse particle recorded. */
  lemma CreateThenRemove(net: Network, x: real, y: real, radius: real)
    requires Valid(net)
    ensures var after := RemoveInteraction(CreateInteraction(net, x, y, radius).0);
      after.particles == net.particles && after.interaction.None?
  {
    var (created, p) := CreateInteraction(net, x, y, radius);
    IndexOfAppended(net.particles, p);
    assert created.particles[..|net.particles|] == net.particles;
  }

  /** A particle appended after others with different ids is found at the end. */
  lemma IndexOfAppended(ps: seq<Particle>, p: Particle)
    requires forall i :: 0 <= i < |ps| ==> ps[i].id != p.id
    ensures IndexOf(ps + [p], p.id) == |ps|
  {
    assert (ps + [p])[|ps|].id == p.id;
  }
}
