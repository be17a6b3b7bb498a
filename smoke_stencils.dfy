/** The fragment shaders of test/components/SmokeCanvas.tsx that the pressure
    projection runs: divergence, curl, the Jacobi pressure step, gradient
    subtraction and the pressure clear, evaluated on real grids.

    Each pass draws into a target as large as its source textures, so the
    fragment of texel (i, j) sits at the texel centre ((i + 0.5) / w,
    (j + 0.5) / h), and the base vertex shader hands it the four neighbour
    coordinates one texel to the left, right, top and bottom. A sample at
    a texel centre returns that texel, under NEAREST filtering and equally
    under LINEAR filtering (the neighbour's weight is zero there), and the
    CLAMP_TO_EDGE wrap mode turns a coordinate beyond the border into the
    border texel. `CentreSampling` proves that reading of the coordinates;
    from there on a texture is a grid indexed by texel, and `At` reads it
    with clamped indices.

    Only the channels the shaders read are kept: a velocity texel is its .xy
    pair, a pressure, divergence or curl texel its .x value. Reals stand for
    the GPU's floating point. */
module SmokeStencils {
  import SmokeFrame

  datatype Vec2 = Vec2(x: real, y: real)

  const Still: Vec2 := Vec2(0.0, 0.0)

  /** A texture's contents: `cells[j][i]` is texel (i, j), row j counted
      from the bottom. */
  datatype Grid<T> = Grid(width: nat, height: nat, cells: seq<seq<T>>)

  predicate Shaped<T>(g: Grid<T>) {
    g.width > 0 && g.height > 0 && |g.cells| == g.height &&
    forall j :: 0 <= j < g.height ==> |g.cells[j]| == g.width
  }

  predicate SameShape<T, U>(g: Grid<T>, h: Grid<U>) {
    Shaped(g) && Shaped(h) && g.width == h.width && g.height == h.height
  }

  /** Every texel of `g` holds `c`. */
  ghost predicate Uniform<T>(g: Grid<T>, c: T) {
    forall j, i :: 0 <= j < |g.cells| && 0 <= i < |g.cells[j]| ==> g.cells[j][i] == c
  }

  /** CLAMP_TO_EDGE on a texel index. */
  function Clamp(k: int, n: nat): (c: nat)
    requires n > 0
    ensures c < n
    ensures 0 <= k < n ==> c == k
    ensures k < 0 ==> c == 0
    ensures k >= n ==> c == n - 1
  {
    if k < 0 then 0 else if k >= n then n - 1 else k
  }

  /** The texel a nearest sample at coordinate `u` reads, along an axis of
      `n` texels. */
  function Texel(u: real, n: nat): (k: nat)
    requires n > 0
    ensures k < n
  {
    Clamp((u * n as real).Floor, n)
  }

  /** The texture coordinate of the centre of texel `i`. */
  function Centre(i: int, n: nat): real
    requires n > 0
  {
    (i as real + 0.5) / n as real
  }

  /** The coordinate `k` texels away from the centre of texel `i`, as the base
      vertex shader computes vL, vR, vT and vB (texelSize is 1 / n), is
      outside [0, 1] exactly when texel i + k is off the texture, and a
      sample there reads texel i + k clamped to the edge. */
  lemma CentreSampling(i: int, k: int, n: nat)
    requires n > 0 && 0 <= i < n && -1 <= k <= 1
    ensures Centre(i, n) + k as real * (1.0 / n as real) == Centre(i + k, n)
    ensures Centre(i + k, n) < 0.0 <==> i + k < 0
    ensures Centre(i + k, n) > 1.0 <==> i + k >= n
    ensures Texel(Centre(i + k, n), n) == Clamp(i + k, n)
  {
    var m := i + k;
    var nr := n as real;
    assert Centre(m, n) * nr == m as real + 0.5;
    assert (Centre(m, n) * nr).Floor == m;
    assert Centre(m, n) < 0.0 <==> m as real + 0.5 < 0.0;
    assert Centre(m, n) - 1.0 == (m as real + 0.5 - nr) / nr;
    assert Centre(m, n) > 1.0 <==> m as real + 0.5 > nr;
  }

  /** `texture2D(g, coordinate of texel (i, j))` on a clamped texture. */
  function At<T>(g: Grid<T>, i: int, j: int): T
    requires Shaped(g)
  {
    g.cells[Clamp(j, g.height)][Clamp(i, g.width)]
  }

  /** The target of a full-screen draw: texel (i, j) holds `f(i, j)`. */
  function Draw<T>(w: nat, h: nat, f: (int, int) -> T): (g: Grid<T>)
    requires w > 0 && h > 0
    ensures Shaped(g) && g.width == w && g.height == h
    ensures forall j, i :: 0 <= j < h && 0 <= i < w ==> g.cells[j][i] == f(i, j)
  {
    Grid(w, h, seq(h, j => seq(w, i => f(i, j))))
  }

  /** The divergence shader at texel (i, j). A neighbour beyond the border is
      replaced by the centre's own component negated: the border mirrors
      the flow as a wall would. */
  function DivergenceAt(v: Grid<Vec2>, i: int, j: int): real
    requires Shaped(v)
  {
    var c := At(v, i, j);
    var l := if i - 1 < 0 then -c.x else At(v, i - 1, j).x;
    var r := if i + 1 >= v.width then -c.x else At(v, i + 1, j).x;
    var b := if j - 1 < 0 then -c.y else At(v, i, j - 1).y;
    var t := if j + 1 >= v.height then -c.y else At(v, i, j + 1).y;
    0.5 * (r - l + t - b)
  }

  /** The divergence pass over the velocity texture. */
  function Divergence(v: Grid<Vec2>): (d: Grid<real>)
    requires Shaped(v)
    ensures SameShape(d, v)
    ensures forall j, i :: 0 <= j < d.height && 0 <= i < d.width ==> d.cells[j][i] == DivergenceAt(v, i, j)
  {
    Draw(v.width, v.height, (i, j) => DivergenceAt(v, i, j))
  }

  /** The curl shader at texel (i, j): R - L - T + B, with the y component
      sampled left and right and the x component above and below. */
  function CurlAt(v: Grid<Vec2>, i: int, j: int): real
    requires Shaped(v)
  {
    At(v, i + 1, j).y - At(v, i - 1, j).y - At(v, i, j + 1).x + At(v, i, j - 1).x
  }

  /** The curl pass over the velocity texture. */
  function Curl(v: Grid<Vec2>): (c: Grid<real>)
    requires Shaped(v)
    ensures SameShape(c, v)
    ensures forall j, i :: 0 <= j < c.height && 0 <= i < c.width ==> c.cells[j][i] == CurlAt(v, i, j)
  {
    Draw(v.width, v.height, (i, j) => CurlAt(v, i, j))
  }

  /** The clear pass: `value * texture2D(uTexture, vUv)`. */
  function Clear(value: real, p: Grid<real>): (q: Grid<real>)
    requires Shaped(p)
    ensures SameShape(q, p)
    ensures forall j, i :: 0 <= j < q.height && 0 <= i < q.width ==> q.cells[j][i] == value * p.cells[j][i]
  {
    Draw(p.width, p.height, (i, j) => value * At(p, i, j))
  }

  /** The pressure shader at texel (i, j): one Jacobi step, the mean of the
      four neighbours less a quarter of the divergence. */
  function JacobiAt(p: Grid<real>, d: Grid<real>, i: int, j: int): real
    requires Shaped(p) && Shaped(d)
  {
    (At(p, i - 1, j) + At(p, i + 1, j) + At(p, i, j - 1) + At(p, i, j + 1) - At(d, i, j)) * 0.25
  }

  /** One pressure pass. */
  function Jacobi(p: Grid<real>, d: Grid<real>): (q: Grid<real>)
    requires SameShape(p, d)
    ensures SameShape(q, p)
    ensures forall j, i :: 0 <= j < q.height && 0 <= i < q.width ==> q.cells[j][i] == JacobiAt(p, d, i, j)
  {
    Draw(p.width, p.height, (i, j) => JacobiAt(p, d, i, j))
  }

  /** `n` pressure passes against the same divergence. */
  function Iterated(p: Grid<real>, d: Grid<real>, n: nat): (q: Grid<real>)
    requires SameShape(p, d)
    ensures SameShape(q, p)
  {
    if n == 0 then p else Jacobi(Iterated(p, d, n - 1), d)
  }

  /** The gradient-subtraction shader at texel (i, j): the velocity less half
      the central differences of the pressure. */
  function GradientAt(p: Grid<real>, v: Grid<Vec2>, i: int, j: int): Vec2
    requires Shaped(p) && Shaped(v)
  {
    var u := At(v, i, j);
    Vec2(u.x - 0.5 * (At(p, i + 1, j) - At(p, i - 1, j)),
         u.y - 0.5 * (At(p, i, j + 1) - At(p, i, j - 1)))
  }

  /** The gradient-subtraction pass. */
  function SubtractGradient(p: Grid<real>, v: Grid<Vec2>): (w: Grid<Vec2>)
    requires SameShape(p, v)
    ensures SameShape(w, v)
    ensures forall j, i :: 0 <= j < w.height && 0 <= i < w.width ==> w.cells[j][i] == GradientAt(p, v, i, j)
  {
    Draw(v.width, v.height, (i, j) => GradientAt(p, v, i, j))
  }

  /** The projection half of a frame on grids: the divergence of the
      velocity, the pressure cleared by the dissipation factor and relaxed
      PRESSURE_ITERATIONS times, and the velocity less the pressure
      gradient. Returns the new velocity and the new pressure. */
  function Project(v: Grid<Vec2>, p: Grid<real>): (r: (Grid<Vec2>, Grid<real>))
    requires SameShape(v, p)
    ensures SameShape(r.0, v) && SameShape(r.1, p)
  {
    var d := Divergence(v);
    var q := Iterated(Clear(SmokeFrame.PressureDissipation, p), d, SmokeFrame.PressureIterations);
    (SubtractGradient(q, v), q)
  }

  /** A still fluid has no divergence and no curl anywhere, the texels on
      the border (where the divergence mirrors its samples) included. */
  lemma StillFluidHasNoDivergenceOrCurl(v: Grid<Vec2>)
    requires Shaped(v) && Uniform(v, Still)
    ensures Uniform(Divergence(v), 0.0) && Uniform(Curl(v), 0.0)
  {
  }

  /** A uniform flow has no curl, the clamped border included. */
  lemma UniformFlowHasNoCurl(v: Grid<Vec2>, c: Vec2)
    requires Shaped(v) && Uniform(v, c)
    ensures Uniform(Curl(v), 0.0)
  {
  }

  /** +1 on the first texel of an axis, -1 on the last, 0 between; 0 on an
      axis one texel long. */
  function Wall(k: int, n: nat): real {
    (if k == 0 then 1.0 else 0.0) - (if k == n - 1 then 1.0 else 0.0)
  }

  /** A uniform flow (a, b) has no divergence inside the grid; on the border
      the mirrored samples make the walls a source where the flow leaves them
      and a sink where it runs into them. */
  lemma UniformFlowDivergence(v: Grid<Vec2>, c: Vec2, i: int, j: int)
    requires Shaped(v) && Uniform(v, c) && 0 <= i < v.width && 0 <= j < v.height
    ensures Divergence(v).cells[j][i] == c.x * Wall(i, v.width) + c.y * Wall(j, v.height)
    ensures 0 < i < v.width - 1 && 0 < j < v.height - 1 ==> Divergence(v).cells[j][i] == 0.0
  {
    assert At(v, i, j) == c;
    assert At(v, i - 1, j) == c && At(v, i + 1, j) == c && At(v, i, j - 1) == c && At(v, i, j + 1) == c;
  }

  /** With no divergence, a uniform pressure is a fixed point of the Jacobi
      step; in particular zero pressure stays zero. */
  lemma JacobiFixesUniform(p: Grid<real>, d: Grid<real>, c: real)
    requires SameShape(p, d) && Uniform(p, c) && Uniform(d, 0.0)
    ensures Uniform(Jacobi(p, d), c)
  {
    var q := Jacobi(p, d);
    forall j, i | 0 <= j < |q.cells| && 0 <= i < |q.cells[j]|
      ensures q.cells[j][i] == c
    {
      assert At(p, i - 1, j) == c && At(p, i + 1, j) == c && At(p, i, j - 1) == c && At(p, i, j + 1) == c;
      assert At(d, i, j) == 0.0;
    }
  }

  /** Any number of Jacobi steps keeps a uniform pressure when there is no
      divergence. */
  lemma {:induction false} IteratedFixesUniform(p: Grid<real>, d: Grid<real>, c: real, n: nat)
    requires SameShape(p, d) && Uniform(p, c) && Uniform(d, 0.0)
    ensures Uniform(Iterated(p, d, n), c)
  {
    if n > 0 {
      IteratedFixesUniform(p, d, c, n - 1);
      JacobiFixesUniform(Iterated(p, d, n - 1), d, c);
    }
  }

  /** A uniform pressure exerts no force: gradient subtraction leaves the
      velocity as it is. */
  lemma UniformPressureKeepsVelocity(p: Grid<real>, v: Grid<Vec2>, c: real)
    requires SameShape(p, v) && Uniform(p, c)
    ensures SubtractGradient(p, v) == v
  {
    var w := SubtractGradient(p, v);
    forall j | 0 <= j < v.height
      ensures w.cells[j] == v.cells[j]
    {
      forall i | 0 <= i < v.width
        ensures w.cells[j][i] == v.cells[j][i]
      {
        assert At(p, i - 1, j) == c && At(p, i + 1, j) == c && At(p, i, j - 1) == c && At(p, i, j + 1) == c;
      }
    }
  }

  /** Two clears in a row scale the pressure by the product of their values. */
  lemma ClearTwice(a: real, b: real, p: Grid<real>)
    requires Shaped(p)
    ensures Clear(a, Clear(b, p)) == Clear(a * b, p)
  {
    var l, r := Clear(a, Clear(b, p)), Clear(a * b, p);
    forall j | 0 <= j < p.height
      ensures l.cells[j] == r.cells[j]
    {
      forall i | 0 <= i < p.width
        ensures l.cells[j][i] == r.cells[j][i]
      {
        assert l.cells[j][i] == a * (b * p.cells[j][i]);
      }
    }
  }

  /** A still fluid under a uniform pressure stays still through the whole
      projection, and its pressure stays uniform, scaled by the dissipation
      factor. */
  lemma StillFluidStaysStill(v: Grid<Vec2>, p: Grid<real>, c: real)
    requires SameShape(v, p) && Uniform(v, Still) && Uniform(p, c)
    ensures Project(v, p).0 == v && Uniform(Project(v, p).1, SmokeFrame.PressureDissipation * c)
  {
    var d := Divergence(v);
    StillFluidHasNoDivergenceOrCurl(v);
    var cleared := Clear(SmokeFrame.PressureDissipation, p);
    assert Uniform(cleared, SmokeFrame.PressureDissipation * c);
    IteratedFixesUniform(cleared, d, SmokeFrame.PressureDissipation * c, SmokeFrame.PressureIterations);
    UniformPressureKeepsVelocity(Iterated(cleared, d, SmokeFrame.PressureIterations), v, SmokeFrame.PressureDissipation * c);
  }
}
