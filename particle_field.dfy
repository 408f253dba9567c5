/**
 * The particle-field engine shared by the ambient and the hero canvas
 * backgrounds: density tiers, particle creation from random draws, the
 * move-and-wrap step and the proximity links between particle pairs.
 * The two backgrounds run the same code and differ only in an EngineConfig.
 */
module ParticleField {

  /**
   * Tuning constants of one background. A fresh particle gets
   * vx, vy = (rand - 0.5) * velocityScale,
   * radius = rand * radiusSpan + radiusMin, alpha = rand * alphaSpan + alphaMin,
   * and a link at distance d has opacity linkOpacityScale * (1 - d / 120).
   */
  datatype EngineConfig = EngineConfig(
    velocityScale: real,
    radiusSpan: real,
    radiusMin: real,
    alphaSpan: real,
    alphaMin: real,
    linkOpacityScale: real)

  predicate ValidConfig(cfg: EngineConfig)
  {
    && cfg.velocityScale > 0.0
    && cfg.radiusSpan > 0.0 && cfg.radiusMin >= 0.0
    && cfg.alphaSpan > 0.0 && cfg.alphaMin >= 0.0
    && cfg.linkOpacityScale > 0.0
  }

  /** The ambient background used behind the application pages. */
  const Ambient := EngineConfig(0.2, 1.8, 2.2, 0.25, 0.2, 0.15)

  /** The hero background: faster, larger and brighter particles, stronger links. */
  const Hero := EngineConfig(0.35, 2.0, 3.5, 0.35, 0.35, 0.25)

  lemma ConfigsValid()
    ensures ValidConfig(Ambient) && ValidConfig(Hero)
  {
  }

  const MobileBreakpoint: int := 768
  const MobileCount: nat := 30
  const DesktopCount: nat := 50
  const MaxDistance: real := 120.0
  const MaxDistanceSq: real := MaxDistance * MaxDistance

  /** `isMobile()`: a viewport narrower than the 768-pixel breakpoint. */
  function IsMobile(viewportWidth: int): (b: bool)
    ensures b <==> viewportWidth <= 767
  {
    viewportWidth < MobileBreakpoint
  }

  /** The density tier: 30 particles on a viewport narrower than 768 pixels, 50 otherwise. */
  function ParticleCount(viewportWidth: int): (n: nat)
    ensures n == 30 <==> viewportWidth < 768
    ensures n == 50 <==> viewportWidth >= 768
  {
    if IsMobile(viewportWidth) then MobileCount else DesktopCount
  }

  datatype Particle = Particle(x: real, y: real, vx: real, vy: real, radius: real, alpha: real)

  /** The six `Math.random()` results one particle consumes, in the order the source draws them. */
  datatype Draws = Draws(x: real, y: real, vx: real, vy: real, radius: real, alpha: real)

  predicate Unit(r: real)
  {
    0.0 <= r < 1.0
  }

  predicate ValidDraws(d: Draws)
  {
    Unit(d.x) && Unit(d.y) && Unit(d.vx) && Unit(d.vy) && Unit(d.radius) && Unit(d.alpha)
  }

  predicate ValidDrawSeq(ds: seq<Draws>)
  {
    forall k :: 0 <= k < |ds| ==> ValidDraws(ds[k])
  }

  /** The fixed attributes of a particle lie in the ranges its configuration samples from. */
  predicate InShape(cfg: EngineConfig, p: Particle)
  {
    && -cfg.velocityScale / 2.0 <= p.vx < cfg.velocityScale / 2.0
    && -cfg.velocityScale / 2.0 <= p.vy < cfg.velocityScale / 2.0
    && cfg.radiusMin <= p.radius < cfg.radiusMin + cfg.radiusSpan
    && cfg.alphaMin <= p.alpha < cfg.alphaMin + cfg.alphaSpan
  }

  /** The position lies on the canvas, edges included. */
  predicate OnCanvas(p: Particle, width: nat, height: nat)
  {
    0.0 <= p.x <= width as real && 0.0 <= p.y <= height as real
  }

  predicate WellFormed(cfg: EngineConfig, p: Particle, width: nat, height: nat)
  {
    InShape(cfg, p) && OnCanvas(p, width, height)
  }

  predicate AllWellFormed(cfg: EngineConfig, ps: seq<Particle>, width: nat, height: nat)
  {
    forall k :: 0 <= k < |ps| ==> WellFormed(cfg, ps[k], width, height)
  }

  /** `r * w` for a draw r in [0, 1): in [0, w), or 0 when w is 0. */
  function Scaled(r: real, w: real): (v: real)
    requires Unit(r) && w >= 0.0
    ensures 0.0 <= v <= w
    ensures w > 0.0 ==> v < w
    ensures w == 0.0 ==> v == 0.0
  {
    assert w > 0.0 ==> r * w < 1.0 * w;
    r * w
  }

  /** `(r - 0.5) * s` for a draw r in [0, 1): in [-s/2, s/2). */
  function Centered(r: real, s: real): (v: real)
    requires Unit(r) && s > 0.0
    ensures -s / 2.0 <= v < s / 2.0
  {
    assert (r - 0.5) * s == Scaled(r, s) - s / 2.0;
    (r - 0.5) * s
  }

  /** `r * span + min` for a draw r in [0, 1): in [min, min + span). */
  function Offset(r: real, span: real, min: real): (v: real)
    requires Unit(r) && span > 0.0
    ensures min <= v < min + span
  {
    Scaled(r, span) + min
  }

  /**
   * One freshly created particle. Its position lies in [0, width) x [0, height)
   * (just 0 on a zero-sized axis) and its fixed attributes lie in the
   * configured half-open ranges.
   */
  function Spawn(cfg: EngineConfig, width: nat, height: nat, d: Draws): (p: Particle)
    requires ValidConfig(cfg) && ValidDraws(d)
    ensures 0.0 <= p.x && (width > 0 ==> p.x < width as real) && (width == 0 ==> p.x == 0.0)
    ensures 0.0 <= p.y && (height > 0 ==> p.y < height as real) && (height == 0 ==> p.y == 0.0)
    ensures WellFormed(cfg, p, width, height)
  {
    Particle(
      Scaled(d.x, width as real),
      Scaled(d.y, height as real),
      Centered(d.vx, cfg.velocityScale),
      Centered(d.vy, cfg.velocityScale),
      Offset(d.radius, cfg.radiusSpan, cfg.radiusMin),
      Offset(d.alpha, cfg.alphaSpan, cfg.alphaMin))
  }

  /** The particles an initialisation creates, one per set of draws, in order. */
  function SpawnAll(cfg: EngineConfig, width: nat, height: nat, ds: seq<Draws>): (ps: seq<Particle>)
    requires ValidConfig(cfg) && ValidDrawSeq(ds)
    ensures |ps| == |ds|
    ensures forall k :: 0 <= k < |ps| ==> ps[k] == Spawn(cfg, width, height, ds[k])
    ensures AllWellFormed(cfg, ps, width, height)
  {
    seq(|ds|, k requires 0 <= k < |ds| => Spawn(cfg, width, height, ds[k]))
  }

  /** The concrete ranges of the ambient background. */
  lemma AmbientSpawnRanges(width: nat, height: nat, d: Draws)
    requires ValidDraws(d)
    ensures var p := Spawn(Ambient, width, height, d);
      && -0.1 <= p.vx < 0.1 && -0.1 <= p.vy < 0.1
      && 2.2 <= p.radius < 4.0 && 0.2 <= p.alpha < 0.45
  {
  }

  /** The concrete ranges of the hero background. */
  lemma HeroSpawnRanges(width: nat, height: nat, d: Draws)
    requires ValidDraws(d)
    ensures var p := Spawn(Hero, width, height, d);
      && -0.175 <= p.vx < 0.175 && -0.175 <= p.vy < 0.175
      && 3.5 <= p.radius < 5.5 && 0.35 <= p.alpha < 0.7
  {
  }

  /**
   * The edge rule of one axis, applied after adding the velocity: below 0
   * jumps to the far edge, beyond the far edge jumps to 0. The result is on
   * the closed interval [0, limit]; it equals `limit` after the first branch.
   */
  function WrapCoord(c: real, limit: real): (r: real)
    requires limit >= 0.0
    ensures 0.0 <= r <= limit
    ensures 0.0 <= c <= limit ==> r == c
    ensures c < 0.0 ==> r == limit
    ensures c > limit ==> r == 0.0
  {
    var a := if c < 0.0 then limit else c;
    if a > limit then 0.0 else a
  }

  /** One frame's move of one particle: only the position changes. */
  function Moved(p: Particle, width: nat, height: nat): (q: Particle)
    ensures q.x == WrapCoord(p.x + p.vx, width as real)
    ensures q.y == WrapCoord(p.y + p.vy, height as real)
    ensures q.vx == p.vx && q.vy == p.vy && q.radius == p.radius && q.alpha == p.alpha
    ensures OnCanvas(q, width, height)
  {
    p.(x := WrapCoord(p.x + p.vx, width as real), y := WrapCoord(p.y + p.vy, height as real))
  }

  /** Every particle moved once, the count unchanged. */
  function Advanced(ps: seq<Particle>, width: nat, height: nat): (qs: seq<Particle>)
    ensures |qs| == |ps|
    ensures forall k :: 0 <= k < |qs| ==> qs[k] == Moved(ps[k], width, height)
  {
    seq(|ps|, k requires 0 <= k < |ps| => Moved(ps[k], width, height))
  }

  /** A frame keeps every particle on the canvas, whatever its velocity, and changes no fixed attribute. */
  lemma AdvancePreservesWellFormed(cfg: EngineConfig, ps: seq<Particle>, width: nat, height: nat)
    requires forall k :: 0 <= k < |ps| ==> InShape(cfg, ps[k])
    ensures AllWellFormed(cfg, Advanced(ps, width, height), width, height)
  {
  }

  // ---------------------------------------------------------------- links

  /** A proximity link between particles i < j, with their squared distance. */
  datatype Link = Link(i: nat, j: nat, distSq: real)

  /** `r * r` */
  function Sq(r: real): (s: real)
    ensures s >= 0.0
  {
    r * r
  }

  /** `dx * dx + dy * dy` */
  function DistSq(p: Particle, q: Particle): (d: real)
    ensures d >= 0.0
  {
    Sq(p.x - q.x) + Sq(p.y - q.y)
  }

  predicate Close(p: Particle, q: Particle)
  {
    DistSq(p, q) < MaxDistanceSq
  }

  /** The link (i, j) as the inner loop records it when the pair is close, else nothing. */
  function PairLink(ps: seq<Particle>, i: nat, j: nat): seq<Link>
    requires i < |ps| && j < |ps|
  {
    if Close(ps[i], ps[j]) then [Link(i, j, DistSq(ps[i], ps[j]))] else []
  }

  /** The links of row i found by the inner loop once it has reached j. */
  function RowLinks(ps: seq<Particle>, i: nat, j: nat): seq<Link>
    requires i + 1 <= j <= |ps|
    decreases j
  {
    if j == i + 1 then [] else RowLinks(ps, i, j - 1) + PairLink(ps, i, j - 1)
  }

  /** The links found by the outer loop once it has finished rows 0 .. i-1. */
  function LinksBefore(ps: seq<Particle>, i: nat): seq<Link>
    requires i <= |ps|
  {
    if i == 0 then [] else LinksBefore(ps, i - 1) + RowLinks(ps, i - 1, |ps|)
  }

  /** The links one frame draws, in drawing order. */
  function FrameLinks(ps: seq<Particle>): seq<Link>
  {
    LinksBefore(ps, |ps|)
  }

  /** The pair (l.i, l.j) is an index pair i < j of `ps` that is close, and l carries its squared distance. */
  predicate Accepted(ps: seq<Particle>, l: Link)
  {
    l.i < l.j < |ps| && Close(ps[l.i], ps[l.j]) && l.distSq == DistSq(ps[l.i], ps[l.j])
  }

  /** Lexicographic order on index pairs; strictly increasing means no pair twice. */
  predicate Precedes(a: Link, b: Link)
  {
    a.i < b.i || (a.i == b.i && a.j < b.j)
  }

  predicate StrictlyOrdered(links: seq<Link>)
  {
    forall a, b :: 0 <= a < b < |links| ==> Precedes(links[a], links[b])
  }

  /** The inner loop's step from j to j + 1 appends the pair (i, j) when it is close. */
  lemma RowLinksStep(ps: seq<Particle>, i: nat, j: nat)
    requires i + 1 <= j < |ps|
    ensures RowLinks(ps, i, j + 1) == RowLinks(ps, i, j) + PairLink(ps, i, j)
  {
  }

  lemma PairLinkMembers(ps: seq<Particle>, i: nat, j: nat)
    requires i < j < |ps|
    ensures forall l :: l in PairLink(ps, i, j) <==> l.i == i && l.j == j && Accepted(ps, l)
  {
  }

  /** Two ordered runs, every element of the first before every element of the second, concatenate to an ordered run. */
  lemma ConcatOrdered(a: seq<Link>, b: seq<Link>)
    requires StrictlyOrdered(a) && StrictlyOrdered(b)
    requires forall p, q :: 0 <= p < |a| && 0 <= q < |b| ==> Precedes(a[p], b[q])
    ensures StrictlyOrdered(a + b)
  {
    var c := a + b;
    forall x, y | 0 <= x < y < |c|
      ensures Precedes(c[x], c[y])
    {
      if y < |a| {
        assert c[x] == a[x] && c[y] == a[y];
      } else if x >= |a| {
        assert c[x] == b[x - |a|] && c[y] == b[y - |a|];
      } else {
        assert c[x] == a[x] && c[y] == b[y - |a|];
      }
    }
  }

  /** The inner loop up to j records exactly the close pairs (i, k) with k < j. */
  lemma {:induction false} RowLinksMembers(ps: seq<Particle>, i: nat, j: nat)
    requires i + 1 <= j <= |ps|
    ensures forall l :: l in RowLinks(ps, i, j) <==> l.i == i && l.j < j && Accepted(ps, l)
    decreases j
  {
    if j > i + 1 {
      RowLinksMembers(ps, i, j - 1);
      PairLinkMembers(ps, i, j - 1);
      assert RowLinks(ps, i, j) == RowLinks(ps, i, j - 1) + PairLink(ps, i, j - 1);
    }
  }

  lemma RowLinksIndices(ps: seq<Particle>, i: nat, j: nat)
    requires i + 1 <= j <= |ps|
    ensures forall q :: 0 <= q < |RowLinks(ps, i, j)| ==> RowLinks(ps, i, j)[q].i == i && RowLinks(ps, i, j)[q].j < j
  {
    RowLinksMembers(ps, i, j);
    var r := RowLinks(ps, i, j);
    forall q | 0 <= q < |r|
      ensures r[q].i == i && r[q].j < j
    {
      assert r[q] in r;
    }
  }

  /** ... in increasing order of the second index. */
  lemma {:induction false} RowLinksOrdered(ps: seq<Particle>, i: nat, j: nat)
    requires i + 1 <= j <= |ps|
    ensures StrictlyOrdered(RowLinks(ps, i, j))
    decreases j
  {
    if j > i + 1 {
      RowLinksOrdered(ps, i, j - 1);
      RowLinksIndices(ps, i, j - 1);
      ConcatOrdered(RowLinks(ps, i, j - 1), PairLink(ps, i, j - 1));
    }
  }

  /** The outer loop up to i records exactly the close pairs whose first index is below i. */
  lemma {:induction false} LinksBeforeMembers(ps: seq<Particle>, i: nat)
    requires i <= |ps|
    ensures forall l :: l in LinksBefore(ps, i) <==> l.i < i && Accepted(ps, l)
  {
    if i > 0 {
      LinksBeforeMembers(ps, i - 1);
      RowLinksMembers(ps, i - 1, |ps|);
      var prev := LinksBefore(ps, i - 1);
      var row := RowLinks(ps, i - 1, |ps|);
      assert LinksBefore(ps, i) == prev + row;
      forall l
        ensures l in LinksBefore(ps, i) <==> l.i < i && Accepted(ps, l)
      {
        assert l in prev + row <==> l in prev || l in row;
      }
    }
  }

  lemma LinksBeforeIndices(ps: seq<Particle>, i: nat)
    requires i <= |ps|
    ensures forall p :: 0 <= p < |LinksBefore(ps, i)| ==> LinksBefore(ps, i)[p].i < i
  {
    LinksBeforeMembers(ps, i);
    var r := LinksBefore(ps, i);
    forall p | 0 <= p < |r|
      ensures r[p].i < i
    {
      assert r[p] in r;
    }
  }

  /** ... in lexicographic order of the index pairs. */
  lemma {:induction false} LinksBeforeOrdered(ps: seq<Particle>, i: nat)
    requires i <= |ps|
    ensures StrictlyOrdered(LinksBefore(ps, i))
  {
    if i > 0 {
      LinksBeforeOrdered(ps, i - 1);
      LinksBeforeIndices(ps, i - 1);
      RowLinksOrdered(ps, i - 1, |ps|);
      RowLinksIndices(ps, i - 1, |ps|);
      ConcatOrdered(LinksBefore(ps, i - 1), RowLinks(ps, i - 1, |ps|));
    }
  }

  /**
   * A frame draws exactly the close pairs i < j, computed on the moved
   * positions, each unordered pair at most once: the drawing order is
   * strictly increasing, so no pair and no mirrored pair (j, i) repeats.
   */
  lemma FrameLinksExact(ps: seq<Particle>)
    ensures forall l :: l in FrameLinks(ps) <==> Accepted(ps, l)
    ensures StrictlyOrdered(FrameLinks(ps))
    ensures forall a, b :: 0 <= a < b < |FrameLinks(ps)| ==>
      (FrameLinks(ps)[a].i, FrameLinks(ps)[a].j) != (FrameLinks(ps)[b].i, FrameLinks(ps)[b].j)
  {
    LinksBeforeMembers(ps, |ps|);
    LinksBeforeOrdered(ps, |ps|);
  }

  /** The nested i < j loop of one frame. */
  method ComputeLinks(ps: seq<Particle>) returns (links: seq<Link>)
    ensures links == FrameLinks(ps)
    ensures forall l :: l in links <==> Accepted(ps, l)
  {
    links := [];
    var i := 0;
    while i < |ps|
      invariant 0 <= i <= |ps|
      invariant links == LinksBefore(ps, i)
    {
      var j := i + 1;
      while j < |ps|
        invariant i + 1 <= j <= |ps|
        invariant links == LinksBefore(ps, i) + RowLinks(ps, i, j)
      {
        var dx := ps[i].x - ps[j].x;
        var dy := ps[i].y - ps[j].y;
        var distSq := Sq(dx) + Sq(dy);
        if distSq < MaxDistanceSq {
          links := links + [Link(i, j, distSq)];
        }
        RowLinksStep(ps, i, j);
        j := j + 1;
      }
      i := i + 1;
    }
    LinksBeforeMembers(ps, |ps|);
  }

  /** Linear opacity falloff of a link at distance `dist`. */
  function LinkOpacity(cfg: EngineConfig, dist: real): (op: real)
    ensures dist == 0.0 ==> op == cfg.linkOpacityScale
    ensures dist == MaxDistance ==> op == 0.0
  {
    cfg.linkOpacityScale * (1.0 - dist / MaxDistance)
  }

  /**
   * For an accepted pair at distance d (d >= 0 and d * d == distSq < 120^2),
   * the opacity lies in (0, linkOpacityScale] and is the full scale at d == 0.
   */
  lemma OpacityInRange(cfg: EngineConfig, distSq: real, dist: real)
    requires ValidConfig(cfg)
    requires 0.0 <= dist && dist * dist == distSq && distSq < MaxDistanceSq
    ensures 0.0 < LinkOpacity(cfg, dist) <= cfg.linkOpacityScale
    ensures dist == 0.0 ==> LinkOpacity(cfg, dist) == cfg.linkOpacityScale
  {
    assert dist < MaxDistance;
    assert dist / MaxDistance < 1.0;
  }

  /** Every link a frame draws has an opacity in (0, linkOpacityScale], whatever root d of its squared distance is taken. */
  lemma DrawnLinkOpacity(cfg: EngineConfig, ps: seq<Particle>)
    requires ValidConfig(cfg)
    ensures forall l, d :: l in FrameLinks(ps) && 0.0 <= d && d * d == l.distSq ==>
      0.0 < LinkOpacity(cfg, d) <= cfg.linkOpacityScale
  {
    LinksBeforeMembers(ps, |ps|);
    forall l, d | l in FrameLinks(ps) && 0.0 <= d && d * d == l.distSq
      ensures 0.0 < LinkOpacity(cfg, d) <= cfg.linkOpacityScale
    {
      OpacityInRange(cfg, l.distSq, d);
    }
  }

  /** Opacity is zero at the cut-off distance and strictly decreasing in the distance. */
  lemma OpacityFalloff(cfg: EngineConfig, d1: real, d2: real)
    requires ValidConfig(cfg) && d1 < d2
    ensures LinkOpacity(cfg, MaxDistance) == 0.0
    ensures LinkOpacity(cfg, d1) > LinkOpacity(cfg, d2)
  {
    assert d1 / MaxDistance < d2 / MaxDistance;
    assert cfg.linkOpacityScale * (d2 / MaxDistance - d1 / MaxDistance) > 0.0;
  }

  /** Two particles 100 pixels apart form one link, of opacity one sixth of the scale. */
  lemma TwoParticleScenario(cfg: EngineConfig, p: Particle, q: Particle)
    requires p.x == 0.0 && p.y == 0.0 && q.x == 100.0 && q.y == 0.0
    ensures FrameLinks([p, q]) == [Link(0, 1, 10000.0)]
    ensures LinkOpacity(cfg, 100.0) == cfg.linkOpacityScale / 6.0
  {
    assert DistSq(p, q) == 10000.0;
    assert RowLinks([p, q], 0, 2) == [Link(0, 1, 10000.0)];
    assert LinksBefore([p, q], 1) == [Link(0, 1, 10000.0)];
    assert RowLinks([p, q], 1, 2) == [];
  }
}
