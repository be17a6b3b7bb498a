/** The reference for one animation frame of test/components/SmokeCanvas.tsx,
    stated on values: which field each pass computes from which fields
    (the dataflow), which draws and swaps the frame performs on which units
    (the trace), and where the double buffers' halves end up (the layout).
    The component's methods are proved to produce exactly these. */
module SmokeFrame {
  import opened SmokeGl

  /** The `config` object. */
  const TextureDownsample: nat := 1
  const DensityDissipation: real := 0.98
  const VelocityDissipation: real := 0.99
  const PressureDissipation: real := 0.8
  const PressureIterations: nat := 25
  const CurlStrength: real := 35.0
  const SplatRadius: real := 0.002

  datatype Rgb = Rgb(r: real, g: real, b: real)

  /** A tracked pointer; `color` holds the three components of `color: number[]`. */
  datatype Pointer = Pointer(id: int, x: real, y: real, dx: real, dy: real, down: bool, moved: bool, color: Rgb)

  /** The sizes the passes read: the simulation textures' and the canvas's. */
  datatype Sizes = Sizes(textureWidth: int, textureHeight: int, canvasWidth: int, canvasHeight: int)

  // What each program computes, written with the uniform values the
  // component sets for it.

  function Advected(velocity: Field, source: Field, s: Sizes, dt: real, dissipation: real): Field {
    Pass(AdvectionProgram, [velocity, source], [Reciprocals(s.textureWidth, s.textureHeight), Float(dt), Float(dissipation)])
  }

  function Splatted(target: Field, s: Sizes, x: real, y: real, color: UniformValue): Field {
    Pass(SplatProgram, [target], [Ratio(s.canvasWidth, s.canvasHeight), color, SplatPoint(x, y, s.canvasWidth, s.canvasHeight), Float(SplatRadius)])
  }

  function CurlOf(velocity: Field, s: Sizes): Field {
    Pass(CurlProgram, [velocity], [Reciprocals(s.textureWidth, s.textureHeight)])
  }

  function Confined(velocity: Field, curl: Field, s: Sizes, dt: real): Field {
    Pass(VorticityProgram, [velocity, curl], [Reciprocals(s.textureWidth, s.textureHeight), Float(CurlStrength), Float(dt)])
  }

  function DivergenceOf(velocity: Field, s: Sizes): Field {
    Pass(DivergenceProgram, [velocity], [Reciprocals(s.textureWidth, s.textureHeight)])
  }

  function Scaled(pressure: Field): Field {
    Pass(ClearProgram, [pressure], [Float(PressureDissipation)])
  }

  function Relaxed(pressure: Field, divergence: Field, s: Sizes): Field {
    Pass(PressureProgram, [pressure, divergence], [Reciprocals(s.textureWidth, s.textureHeight)])
  }

  function Projected(pressure: Field, velocity: Field, s: Sizes): Field {
    Pass(GradientSubtractProgram, [pressure, velocity], [Reciprocals(s.textureWidth, s.textureHeight)])
  }

  function Displayed(density: Field): Field {
    Pass(DisplayProgram, [density], [])
  }

  /** A double buffer's contents: the half passes read (`first`) and the
      other half, which holds what `first` held before the last write. */
  datatype Buffered = Buffered(current: Field, previous: Field)

  /** A pass that reads `first`, writes `second` and swaps. */
  function Push(b: Buffered, f: Field): Buffered {
    Buffered(f, b.current)
  }

  /** The contents of all eight simulation textures. */
  datatype Fields = Fields(density: Buffered, velocity: Buffered, pressure: Buffered, divergence: Field, curl: Field)

  /** A pass into buffer b: f goes to its `first` and the old `first` to `second`. */
  function PushInto(t: Fields, b: Buffer, f: Field): Fields {
    match b
    case DensityBuffer => t.(density := Push(t.density, f))
    case VelocityBuffer => t.(velocity := Push(t.velocity, f))
    case PressureBuffer => t.(pressure := Push(t.pressure, f))
  }

  // The passes of `update`, in order.

  /** Velocity advects itself; density is advected along the velocity the
      frame started with, because uVelocity is not set again after the swap. */
  function AdvectionStep(t: Fields, s: Sizes, dt: real): Fields {
    var v := t.velocity.current;
    t.(velocity := Push(t.velocity, Advected(v, v, s, dt, VelocityDissipation)),
       density := Push(t.density, Advected(v, t.density.current, s, dt, DensityDissipation)))
  }

  /** One call of `splat`: a velocity impulse (dx, -dy, 1) and a dye impulse
      of 0.3 times the colour, both at the same point. */
  function SplatStep(t: Fields, s: Sizes, x: real, y: real, dx: real, dy: real, color: Rgb): Fields {
    t.(velocity := Push(t.velocity, Splatted(t.velocity.current, s, x, y, Vec3(dx, -dy, 1.0))),
       density := Push(t.density, Splatted(t.density.current, s, x, y, Vec3(color.r * 0.3, color.g * 0.3, color.b * 0.3))))
  }

  /** The pointer loop over `ps`: one splat per pointer whose `moved` is set. */
  function SplatMoved(t: Fields, ps: seq<Pointer>, s: Sizes): Fields
    decreases |ps|
  {
    if ps == [] then t
    else
      var u := SplatMoved(t, ps[..|ps| - 1], s);
      var p := ps[|ps| - 1];
      if p.moved then SplatStep(u, s, p.x, p.y, p.dx, p.dy, p.color) else u
  }

  function MovedCount(ps: seq<Pointer>): nat
    decreases |ps|
  {
    if ps == [] then 0 else MovedCount(ps[..|ps| - 1]) + (if ps[|ps| - 1].moved then 1 else 0)
  }

  /** The pointers after the loop: every `moved` flag cleared, nothing else changed. */
  function Settled(ps: seq<Pointer>): (r: seq<Pointer>)
    ensures |r| == |ps|
    ensures forall i :: 0 <= i < |ps| ==> r[i] == ps[i].(moved := false)
  {
    seq(|ps|, i requires 0 <= i < |ps| => ps[i].(moved := false))
  }

  /** One more pointer of the loop: a splat if it moved, its flag cleared. */
  lemma PointerLoopStep(t: Fields, ps: seq<Pointer>, i: nat, s: Sizes)
    requires i < |ps|
    ensures var u, p := SplatMoved(t, ps[..i], s), ps[i];
      SplatMoved(t, ps[..i + 1], s) == if p.moved then SplatStep(u, s, p.x, p.y, p.dx, p.dy, p.color) else u
    ensures MovedCount(ps[..i + 1]) == MovedCount(ps[..i]) + if ps[i].moved then 1 else 0
  {
    assert ps[..i + 1][..i] == ps[..i];
  }

  /** The pointer list while the loop is at i: the first i pointers
      settled, the rest untouched. Settling the i-th advances it to i + 1. */
  lemma SettleNext(ps: seq<Pointer>, qs: seq<Pointer>, i: nat)
    requires i < |ps| && qs == Settled(ps[..i]) + ps[i..]
    ensures qs[i] == ps[i]
    ensures qs[i := ps[i].(moved := false)] == Settled(ps[..i + 1]) + ps[i + 1..]
    ensures !ps[i].moved ==> qs == Settled(ps[..i + 1]) + ps[i + 1..]
  {
    assert Settled(ps[..i + 1]) == Settled(ps[..i]) + [ps[i].(moved := false)];
    if !ps[i].moved {
      assert ps[i].(moved := false) == ps[i];
    }
    assert qs[i := ps[i].(moved := false)] == Settled(ps[..i + 1]) + ps[i + 1..];
  }

  function CurlStep(t: Fields, s: Sizes): Fields {
    t.(curl := CurlOf(t.velocity.current, s))
  }

  function VorticityStep(t: Fields, s: Sizes, dt: real): Fields {
    t.(velocity := Push(t.velocity, Confined(t.velocity.current, t.curl, s, dt)))
  }

  function DivergenceStep(t: Fields, s: Sizes): Fields {
    t.(divergence := DivergenceOf(t.velocity.current, s))
  }

  function ClearStep(t: Fields): Fields {
    t.(pressure := Push(t.pressure, Scaled(t.pressure.current)))
  }

  /** n Jacobi iterations, all against the same divergence. */
  function JacobiSteps(t: Fields, s: Sizes, n: nat): Fields {
    if n == 0 then t
    else
      var u := JacobiSteps(t, s, n - 1);
      u.(pressure := Push(u.pressure, Relaxed(u.pressure.current, u.divergence, s)))
  }

  function GradientStep(t: Fields, s: Sizes): Fields {
    t.(velocity := Push(t.velocity, Projected(t.pressure.current, t.velocity.current, s)))
  }

  /** Curl, vorticity confinement and divergence. */
  function ForcesStep(t: Fields, s: Sizes, dt: real): Fields {
    DivergenceStep(VorticityStep(CurlStep(t, s), s, dt), s)
  }

  /** The projection: clear, the Jacobi iterations, gradient subtraction. */
  function ProjectStep(t: Fields, s: Sizes): Fields {
    GradientStep(JacobiSteps(ClearStep(t), s, PressureIterations), s)
  }

  /** All simulation passes of one frame. */
  function Frame(t: Fields, ps: seq<Pointer>, s: Sizes, dt: real): Fields {
    ProjectStep(ForcesStep(SplatMoved(AdvectionStep(t, s, dt), ps, s), s, dt), s)
  }

  // Where the halves of the double buffers are.

  datatype Pair = Pair(first: Fbo, second: Fbo)

  /** The pair after n swaps. */
  function Flip(p: Pair, n: nat): (q: Pair)
    ensures n % 2 == 0 ==> q == p
    ensures n % 2 == 1 ==> q.first == p.second && q.second == p.first
  {
    if n % 2 == 0 then p else Pair(p.second, p.first)
  }

  lemma FlipTwice(p: Pair, a: nat, b: nat)
    ensures Flip(Flip(p, a), b) == Flip(p, a + b)
  {
  }

  datatype Layout = Layout(density: Pair, velocity: Pair, pressure: Pair, divergence: Fbo, curl: Fbo)

  function PairOf(l: Layout, b: Buffer): Pair {
    match b
    case DensityBuffer => l.density
    case VelocityBuffer => l.velocity
    case PressureBuffer => l.pressure
  }

  function SwapIn(l: Layout, b: Buffer): Layout {
    match b
    case DensityBuffer => l.(density := Flip(l.density, 1))
    case VelocityBuffer => l.(velocity := Flip(l.velocity, 1))
    case PressureBuffer => l.(pressure := Flip(l.pressure, 1))
  }

  /** A pair occupies units u and u + 1, in either order. */
  predicate Holds(p: Pair, u: nat) {
    (p.first.unit == u && p.second.unit == u + 1) || (p.first.unit == u + 1 && p.second.unit == u)
  }

  /** The unit allocation of initFramebuffers: density 0/1, velocity 2/3,
      divergence 4, curl 5, pressure 6/7. */
  predicate LayoutValid(l: Layout) {
    Holds(l.density, 0) && Holds(l.velocity, 2) && Holds(l.pressure, 6) && l.divergence.unit == 4 && l.curl.unit == 5
  }

  /** Swapping keeps the allocation. */
  lemma SwapKeepsLayout(l: Layout, b: Buffer)
    requires LayoutValid(l)
    ensures LayoutValid(SwapIn(l, b))
  {
  }

  /** The layout after k splats: each one swaps velocity and density. */
  function SplatsLayout(l: Layout, k: nat): Layout {
    l.(density := Flip(l.density, k), velocity := Flip(l.velocity, k))
  }

  /** The layout after a frame with k moved pointers. */
  function FrameLayout(l: Layout, k: nat): Layout {
    l.(density := Flip(l.density, 1 + k), velocity := Flip(l.velocity, 3 + k), pressure := Flip(l.pressure, 1 + PressureIterations))
  }

  // The trace of a frame.

  function Into(f: Fbo): Dest {
    Target(f.framebuffer, f.unit)
  }

  function AdvectionTrace(v: Pair, d: Pair): seq<Event> {
    [Draw(AdvectionProgram, [v.first.unit, v.first.unit], Into(v.second)), Swapped(VelocityBuffer),
     Draw(AdvectionProgram, [v.first.unit, d.first.unit], Into(d.second)), Swapped(DensityBuffer)]
  }

  function SplatTrace(v: Pair, d: Pair): seq<Event> {
    [Draw(SplatProgram, [v.first.unit], Into(v.second)), Swapped(VelocityBuffer),
     Draw(SplatProgram, [d.first.unit], Into(d.second)), Swapped(DensityBuffer)]
  }

  /** k splats, starting from the pairs v and d. */
  function SplatsTrace(v: Pair, d: Pair, k: nat): seq<Event> {
    if k == 0 then [] else SplatsTrace(v, d, k - 1) + SplatTrace(Flip(v, k - 1), Flip(d, k - 1))
  }

  /** One more splat continues both the layout and the trace of k splats
      (appended to the trace that came before them). */
  lemma SplatsStep(before: seq<Event>, l: Layout, k: nat)
    ensures SwapIn(SwapIn(SplatsLayout(l, k), VelocityBuffer), DensityBuffer) == SplatsLayout(l, k + 1)
    ensures before + SplatsTrace(l.velocity, l.density, k + 1)
      == before + SplatsTrace(l.velocity, l.density, k) + SplatTrace(SplatsLayout(l, k).velocity, SplatsLayout(l, k).density)
  {
    FlipTwice(l.velocity, k, 1);
    FlipTwice(l.density, k, 1);
  }

  function CurlTrace(v: Pair, c: Fbo): seq<Event> {
    [Draw(CurlProgram, [v.first.unit], Into(c))]
  }

  function VorticityTrace(v: Pair, c: Fbo): seq<Event> {
    [Draw(VorticityProgram, [v.first.unit, c.unit], Into(v.second)), Swapped(VelocityBuffer)]
  }

  function DivergenceTrace(v: Pair, div: Fbo): seq<Event> {
    [Draw(DivergenceProgram, [v.first.unit], Into(div))]
  }

  function ClearTrace(p: Pair): seq<Event> {
    [Draw(ClearProgram, [p.first.unit], Into(p.second)), Swapped(PressureBuffer)]
  }

  function JacobiTrace(p: Pair, div: Fbo): seq<Event> {
    [Draw(PressureProgram, [p.first.unit, div.unit], Into(p.second)), Swapped(PressureBuffer)]
  }

  /** n Jacobi iterations, starting from the pair p. */
  function JacobisTrace(p: Pair, div: Fbo, n: nat): seq<Event> {
    if n == 0 then [] else JacobisTrace(p, div, n - 1) + JacobiTrace(Flip(p, n - 1), div)
  }

  function GradientTrace(p: Pair, v: Pair): seq<Event> {
    [Draw(GradientSubtractProgram, [p.first.unit, v.first.unit], Into(v.second)), Swapped(VelocityBuffer)]
  }

  function DisplayTrace(d: Pair): seq<Event> {
    [Draw(DisplayProgram, [d.first.unit], Screen)]
  }

  /** The draws and swaps of one frame with k moved pointers, starting from
      layout l. */
  function FrameTrace(l: Layout, k: nat): seq<Event> {
    var v, d, p := l.velocity, l.density, l.pressure;
    AdvectionTrace(v, d)
    + SplatsTrace(Flip(v, 1), Flip(d, 1), k)
    + CurlTrace(Flip(v, 1 + k), l.curl)
    + VorticityTrace(Flip(v, 1 + k), l.curl)
    + DivergenceTrace(Flip(v, 2 + k), l.divergence)
    + ClearTrace(p)
    + JacobisTrace(Flip(p, 1), l.divergence, PressureIterations)
    + GradientTrace(Flip(p, 1 + PressureIterations), Flip(v, 2 + k))
    + DisplayTrace(Flip(d, 1 + k))
  }

  /** Where transport (advection and the k splats) leaves the buffers. */
  function TransportLayout(l: Layout, k: nat): Layout {
    l.(density := Flip(l.density, 1 + k), velocity := Flip(l.velocity, 1 + k))
  }

  /** Advection, then one velocity and one density splat per moved pointer. */
  function TransportTrace(l: Layout, k: nat): seq<Event> {
    AdvectionTrace(l.velocity, l.density) + SplatsTrace(Flip(l.velocity, 1), Flip(l.density, 1), k)
  }

  /** Curl, vorticity confinement and divergence, starting from layout l. */
  function ForcesTrace(l: Layout): seq<Event> {
    CurlTrace(l.velocity, l.curl) + VorticityTrace(l.velocity, l.curl) + DivergenceTrace(Flip(l.velocity, 1), l.divergence)
  }

  /** Clear, the Jacobi iterations and gradient subtraction, from layout l. */
  function ProjectTrace(l: Layout): seq<Event> {
    ClearTrace(l.pressure) + JacobisTrace(Flip(l.pressure, 1), l.divergence, PressureIterations)
    + GradientTrace(Flip(l.pressure, 1 + PressureIterations), l.velocity)
  }

  /** The forces and then the projection; the forces swap velocity once. */
  function SolveTrace(l: Layout): seq<Event> {
    ForcesTrace(l) + ProjectTrace(SwapIn(l, VelocityBuffer))
  }

  /** The simulation passes of a frame (everything but the display), grouped
      by stage: transport ends in TransportLayout(l, k), and the rest of the
      passes start from there. */
  function SimulationTrace(l: Layout, k: nat): seq<Event> {
    TransportTrace(l, k) + SolveTrace(TransportLayout(l, k))
  }

  /** Appending three stages one after the other appends their concatenation. */
  lemma AppendStages(before: seq<Event>, a: seq<Event>, b: seq<Event>, c: seq<Event>)
    ensures before + a + b + c == before + (a + b + c)
  {
  }

  /** The frame is the simulation passes followed by the display, appended
      to whatever trace came before. */
  lemma FrameByStages(before: seq<Event>, l: Layout, k: nat)
    ensures before + SimulationTrace(l, k) + DisplayTrace(FrameLayout(l, k).density) == before + FrameTrace(l, k)
  {
    FlipTwice(l.velocity, 1 + k, 1);
    assert FrameTrace(l, k) == SimulationTrace(l, k) + DisplayTrace(FrameLayout(l, k).density);
  }

  // Properties of the reference.

  /** A draw never samples the texture it renders into. */
  predicate Safe(e: Event) {
    e.Draw? && e.dest.Target? ==> e.dest.unit !in e.sampled
  }

  predicate NoAliasing(tr: seq<Event>) {
    forall i :: 0 <= i < |tr| ==> Safe(tr[i])
  }

  function SwapOf(e: Event, b: Buffer): nat {
    if e == Swapped(b) then 1 else 0
  }

  /** How many times the trace swaps buffer b. */
  function Swaps(tr: seq<Event>, b: Buffer): nat
    decreases |tr|
  {
    if tr == [] then 0 else SwapOf(tr[0], b) + Swaps(tr[1..], b)
  }

  lemma {:induction false} SwapsAppend(x: seq<Event>, y: seq<Event>, b: Buffer)
    ensures Swaps(x + y, b) == Swaps(x, b) + Swaps(y, b)
    decreases |x|
  {
    if x == [] {
      assert x + y == y;
    } else {
      assert (x + y)[1..] == x[1..] + y;
      SwapsAppend(x[1..], y, b);
    }
  }

  lemma SwapsOfOne(e: Event, b: Buffer)
    ensures Swaps([e], b) == SwapOf(e, b)
  {
    assert [e][1..] == [];
  }

  lemma SwapsOfTwo(e0: Event, e1: Event, b: Buffer)
    ensures Swaps([e0, e1], b) == SwapOf(e0, b) + SwapOf(e1, b)
  {
    assert [e0, e1] == [e0] + [e1];
    SwapsAppend([e0], [e1], b);
    SwapsOfOne(e0, b);
    SwapsOfOne(e1, b);
  }

  lemma SwapsOfFour(e0: Event, e1: Event, e2: Event, e3: Event, b: Buffer)
    ensures Swaps([e0, e1, e2, e3], b) == SwapOf(e0, b) + SwapOf(e1, b) + SwapOf(e2, b) + SwapOf(e3, b)
  {
    assert [e0, e1, e2, e3] == [e0, e1] + [e2, e3];
    SwapsAppend([e0, e1], [e2, e3], b);
    SwapsOfTwo(e0, e1, b);
    SwapsOfTwo(e2, e3, b);
  }

  lemma {:induction false} SplatsTraceSwaps(v: Pair, d: Pair, k: nat)
    ensures Swaps(SplatsTrace(v, d, k), VelocityBuffer) == k
    ensures Swaps(SplatsTrace(v, d, k), DensityBuffer) == k
    ensures Swaps(SplatsTrace(v, d, k), PressureBuffer) == 0
  {
    if k > 0 {
      SplatsTraceSwaps(v, d, k - 1);
      var one := SplatTrace(Flip(v, k - 1), Flip(d, k - 1));
      forall b ensures Swaps(SplatsTrace(v, d, k), b) == Swaps(SplatsTrace(v, d, k - 1), b) + (if b == PressureBuffer then 0 else 1) {
        SwapsOfFour(one[0], one[1], one[2], one[3], b);
        SwapsAppend(SplatsTrace(v, d, k - 1), one, b);
      }
    }
  }

  lemma {:induction false} JacobisTraceSwaps(p: Pair, div: Fbo, n: nat)
    ensures Swaps(JacobisTrace(p, div, n), PressureBuffer) == n
    ensures Swaps(JacobisTrace(p, div, n), VelocityBuffer) == 0
    ensures Swaps(JacobisTrace(p, div, n), DensityBuffer) == 0
  {
    if n > 0 {
      JacobisTraceSwaps(p, div, n - 1);
      var one := JacobiTrace(Flip(p, n - 1), div);
      forall b ensures Swaps(JacobisTrace(p, div, n), b) == Swaps(JacobisTrace(p, div, n - 1), b) + (if b == PressureBuffer then 1 else 0) {
        SwapsOfTwo(one[0], one[1], b);
        SwapsAppend(JacobisTrace(p, div, n - 1), one, b);
      }
    }
  }

  /** The trace of a frame, counted part by part. */
  lemma FrameTraceSwapsByPart(l: Layout, k: nat, b: Buffer)
    ensures var v, d, p := l.velocity, l.density, l.pressure;
      Swaps(FrameTrace(l, k), b) ==
        Swaps(AdvectionTrace(v, d), b) + Swaps(SplatsTrace(Flip(v, 1), Flip(d, 1), k), b) +
        Swaps(CurlTrace(Flip(v, 1 + k), l.curl), b) + Swaps(VorticityTrace(Flip(v, 1 + k), l.curl), b) +
        Swaps(DivergenceTrace(Flip(v, 2 + k), l.divergence), b) + Swaps(ClearTrace(p), b) +
        Swaps(JacobisTrace(Flip(p, 1), l.divergence, PressureIterations), b) +
        Swaps(GradientTrace(Flip(p, 1 + PressureIterations), Flip(v, 2 + k)), b) +
        Swaps(DisplayTrace(Flip(d, 1 + k)), b)
  {
    var v, d, p := l.velocity, l.density, l.pressure;
    var a := AdvectionTrace(v, d);
    var s := SplatsTrace(Flip(v, 1), Flip(d, 1), k);
    var c := CurlTrace(Flip(v, 1 + k), l.curl);
    var o := VorticityTrace(Flip(v, 1 + k), l.curl);
    var dv := DivergenceTrace(Flip(v, 2 + k), l.divergence);
    var cl := ClearTrace(p);
    var j := JacobisTrace(Flip(p, 1), l.divergence, PressureIterations);
    var g := GradientTrace(Flip(p, 1 + PressureIterations), Flip(v, 2 + k));
    var ds := DisplayTrace(Flip(d, 1 + k));
    SwapsAppend(a, s, b);
    SwapsAppend(a + s, c, b);
    SwapsAppend(a + s + c, o, b);
    SwapsAppend(a + s + c + o, dv, b);
    SwapsAppend(a + s + c + o + dv, cl, b);
    SwapsAppend(a + s + c + o + dv + cl, j, b);
    SwapsAppend(a + s + c + o + dv + cl + j, g, b);
    SwapsAppend(a + s + c + o + dv + cl + j + g, ds, b);
  }

  /** The passes outside the two loops swap velocity three times (advection,
      vorticity, gradient), density once and pressure once (the clear pass). */
  lemma FixedPartsSwaps(v: Pair, d: Pair, p: Pair, c: Fbo, div: Fbo, v': Pair, v'': Pair, p': Pair, d': Pair, b: Buffer)
    ensures Swaps(AdvectionTrace(v, d), b) + Swaps(CurlTrace(v', c), b) + Swaps(VorticityTrace(v', c), b) +
      Swaps(DivergenceTrace(v'', div), b) + Swaps(ClearTrace(p), b) + Swaps(GradientTrace(p', v''), b) +
      Swaps(DisplayTrace(d'), b) ==
      match b case PressureBuffer => 1 case VelocityBuffer => 3 case DensityBuffer => 1
  {
    var a := AdvectionTrace(v, d);
    SwapsOfFour(a[0], a[1], a[2], a[3], b);
    SwapsOfOne(CurlTrace(v', c)[0], b);
    SwapsOfTwo(VorticityTrace(v', c)[0], VorticityTrace(v', c)[1], b);
    SwapsOfOne(DivergenceTrace(v'', div)[0], b);
    SwapsOfTwo(ClearTrace(p)[0], ClearTrace(p)[1], b);
    SwapsOfTwo(GradientTrace(p', v'')[0], GradientTrace(p', v'')[1], b);
    SwapsOfOne(DisplayTrace(d')[0], b);
  }

  /** Per frame, pressure swaps 1 + PRESSURE_ITERATIONS = 26 times, velocity
      3 + k and density 1 + k times, where k is the number of moved pointers. */
  lemma FrameSwaps(l: Layout, k: nat)
    ensures Swaps(FrameTrace(l, k), PressureBuffer) == 1 + PressureIterations == 26
    ensures Swaps(FrameTrace(l, k), VelocityBuffer) == 3 + k
    ensures Swaps(FrameTrace(l, k), DensityBuffer) == 1 + k
  {
    var v, d, p := l.velocity, l.density, l.pressure;
    SplatsTraceSwaps(Flip(v, 1), Flip(d, 1), k);
    JacobisTraceSwaps(Flip(p, 1), l.divergence, PressureIterations);
    FrameTraceSwapsByPart(l, k, PressureBuffer);
    FrameTraceSwapsByPart(l, k, VelocityBuffer);
    FrameTraceSwapsByPart(l, k, DensityBuffer);
    FixedPartsSwaps(v, d, p, l.curl, l.divergence, Flip(v, 1 + k), Flip(v, 2 + k), Flip(p, 1 + PressureIterations), Flip(d, 1 + k), PressureBuffer);
    FixedPartsSwaps(v, d, p, l.curl, l.divergence, Flip(v, 1 + k), Flip(v, 2 + k), Flip(p, 1 + PressureIterations), Flip(d, 1 + k), VelocityBuffer);
    FixedPartsSwaps(v, d, p, l.curl, l.divergence, Flip(v, 1 + k), Flip(v, 2 + k), Flip(p, 1 + PressureIterations), Flip(d, 1 + k), DensityBuffer);
  }

  lemma NoAliasingAppend(x: seq<Event>, y: seq<Event>)
    requires NoAliasing(x) && NoAliasing(y)
    ensures NoAliasing(x + y)
  {
    forall i | 0 <= i < |x + y| ensures Safe((x + y)[i]) {
      if i >= |x| {
        assert (x + y)[i] == y[i - |x|];
      }
    }
  }

  lemma {:induction false} SplatsTraceSafe(v: Pair, d: Pair, k: nat)
    requires Holds(v, 2) && Holds(d, 0)
    ensures NoAliasing(SplatsTrace(v, d, k))
  {
    if k > 0 {
      SplatsTraceSafe(v, d, k - 1);
      var one := SplatTrace(Flip(v, k - 1), Flip(d, k - 1));
      assert Safe(one[0]) && Safe(one[2]);
      NoAliasingAppend(SplatsTrace(v, d, k - 1), one);
    }
  }

  lemma {:induction false} JacobisTraceSafe(p: Pair, div: Fbo, n: nat)
    requires Holds(p, 6) && div.unit == 4
    ensures NoAliasing(JacobisTrace(p, div, n))
  {
    if n > 0 {
      JacobisTraceSafe(p, div, n - 1);
      var one := JacobiTrace(Flip(p, n - 1), div);
      assert Safe(one[0]);
      NoAliasingAppend(JacobisTrace(p, div, n - 1), one);
    }
  }

  /** No draw of a frame renders into a texture its program samples, as long
      as the units are allocated as initFramebuffers allocates them. In
      particular density advection, which samples the pre-advection velocity
      (now in `velocity.second`), writes to `density.second`. */
  lemma FrameHasNoAliasing(l: Layout, k: nat)
    requires LayoutValid(l)
    ensures NoAliasing(FrameTrace(l, k))
  {
    var v, d, p := l.velocity, l.density, l.pressure;
    var a := AdvectionTrace(v, d);
    var s := SplatsTrace(Flip(v, 1), Flip(d, 1), k);
    var c := CurlTrace(Flip(v, 1 + k), l.curl);
    var o := VorticityTrace(Flip(v, 1 + k), l.curl);
    var dv := DivergenceTrace(Flip(v, 2 + k), l.divergence);
    var cl := ClearTrace(p);
    var j := JacobisTrace(Flip(p, 1), l.divergence, PressureIterations);
    var g := GradientTrace(Flip(p, 1 + PressureIterations), Flip(v, 2 + k));
    var ds := DisplayTrace(Flip(d, 1 + k));
    assert Safe(a[0]) && Safe(a[2]);
    assert NoAliasing(a);
    SplatsTraceSafe(Flip(v, 1), Flip(d, 1), k);
    assert Safe(c[0]) && Safe(o[0]) && Safe(dv[0]) && Safe(cl[0]) && Safe(g[0]) && Safe(ds[0]);
    JacobisTraceSafe(Flip(p, 1), l.divergence, PressureIterations);
    NoAliasingAppend(a, s);
    NoAliasingAppend(a + s, c);
    NoAliasingAppend(a + s + c, o);
    NoAliasingAppend(a + s + c + o, dv);
    NoAliasingAppend(a + s + c + o + dv, cl);
    NoAliasingAppend(a + s + c + o + dv + cl, j);
    NoAliasingAppend(a + s + c + o + dv + cl + j, g);
    NoAliasingAppend(a + s + c + o + dv + cl + j + g, ds);
  }

  /** Density is advected along the velocity the frame started with (the
      field the velocity pass read, now in `velocity.second`), not along the
      velocity that pass produced. */
  lemma DensityAdvectedByStartVelocity(t: Fields, s: Sizes, dt: real)
    ensures var a := AdvectionStep(t, s, dt);
      && a.density.current.inputs[0] == t.velocity.current == a.velocity.previous
      && a.density.current.inputs[0] != a.velocity.current
      && a.density.current.inputs[1] == t.density.current
  {
    var a := AdvectionStep(t, s, dt);
    assert t.velocity.current in a.velocity.current.inputs;
  }

  /** With no pointer moved, the splat loop changes nothing. */
  lemma {:induction false} NoMoveNoSplat(t: Fields, ps: seq<Pointer>, s: Sizes)
    requires MovedCount(ps) == 0
    ensures SplatMoved(t, ps, s) == t
    decreases |ps|
  {
    if ps != [] {
      NoMoveNoSplat(t, ps[..|ps| - 1], s);
    }
  }

  /** The pressure after n relaxations of p against one divergence field. */
  function Relaxations(p: Field, divergence: Field, s: Sizes, n: nat): Field {
    if n == 0 then p else Relaxed(Relaxations(p, divergence, s, n - 1), divergence, s)
  }

  /** Every Jacobi iteration relaxes against the same divergence (uDivergence
      is set once, before the loop), and the loop touches only pressure. */
  lemma {:induction false} JacobiAgainstOneDivergence(t: Fields, s: Sizes, n: nat)
    requires n >= 1
    ensures var u := JacobiSteps(t, s, n);
      && u.pressure.current == Relaxations(t.pressure.current, t.divergence, s, n)
      && u.pressure.previous == Relaxations(t.pressure.current, t.divergence, s, n - 1)
      && u.(pressure := t.pressure) == t
  {
    if n > 1 {
      JacobiAgainstOneDivergence(t, s, n - 1);
    }
  }
}
