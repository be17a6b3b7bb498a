/** test/components/SmokeCanvas.tsx: the smoke simulation driver.

    The component keeps three double buffers (density, velocity, pressure)
    and two single framebuffers (divergence, curl) on texture units 0..7,
    and every animation frame runs a fixed sequence of full-screen passes,
    each one a program bind, some uniform settings, a draw into a
    framebuffer and, for the double buffers, a swap. A mouse handler
    turns pointer motion into splats for the next frame.

    `Canvas` holds the component's state; its pass methods are proved to
    produce the contents, trace and layout that the SmokeFrame reference
    gives. Clocks and Math.random() values are parameters. */
module SmokeCanvas {
  import opened Wrappers
  import opened SmokeGl
  import opened SmokeFrame

  /** ECMAScript ToInt32: the integer modulo 2^32, read as two's complement. */
  function ToInt32(x: int): (r: int)
    ensures -0x8000_0000 <= r < 0x8000_0000
  {
    var m := x % 0x1_0000_0000;
    if m >= 0x8000_0000 then m - 0x1_0000_0000 else m
  }

  function Pow2(n: nat): (r: nat)
    ensures r >= 1
  {
    if n == 0 then 1 else 2 * Pow2(n - 1)
  }

  /** `x >> n`: an arithmetic shift of ToInt32(x) by n mod 32 bits, that is a
      division by 2^(n mod 32) rounded toward minus infinity. */
  function ShiftRight(x: int, n: nat): int {
    ToInt32(x) / Pow2(n % 32)
  }

  /** For a size that fits in 31 bits, `size >> TEXTURE_DOWNSAMPLE` halves it,
      rounding down: the simulation runs at half the drawing-buffer resolution. */
  lemma DownsampleHalves(size: int)
    requires 0 <= size < 0x8000_0000
    ensures var t := ShiftRight(size, TextureDownsample);
      0 <= t && 2 * t <= size < 2 * t + 2
  {
    assert ToInt32(size) == size;
    assert Pow2(1) == 2;
  }

  /** `Math.min((now - lastTime) / 1000, 0.016)`: the elapsed time in seconds,
      capped at 16 ms. */
  function ClampedDt(elapsedMs: int): (dt: real)
    ensures dt <= 0.016 && dt <= elapsedMs as real / 1000.0
    ensures dt == elapsedMs as real / 1000.0 || dt == 0.016
  {
    var seconds := elapsedMs as real / 1000.0;
    if seconds < 0.016 then seconds else 0.016
  }

  /** The counter update of handleMouseMove: increment, and restart at 0 once
      it would pass 25. */
  function NextColorCount(c: int): int {
    if c + 1 > 25 then 0 else c + 1
  }

  /** colorCount after n mouse moves since mount. */
  function ColorCountAfter(n: nat): int {
    if n == 0 then 0 else NextColorCount(ColorCountAfter(n - 1))
  }

  /** The counter cycles through 0..25. */
  lemma {:induction false} ColorCountCycles(n: nat)
    ensures ColorCountAfter(n) == n % 26
  {
    if n > 0 {
      ColorCountCycles(n - 1);
    }
  }

  /** The colour is replaced on exactly every 26th mouse move. */
  lemma ColorReplacedEvery26th(n: nat)
    requires n >= 1
    ensures ColorCountAfter(n - 1) + 1 > 25 <==> n % 26 == 0
  {
    ColorCountCycles(n - 1);
  }

  /** The pointer list's initial entry. */
  const InitialPointer: Pointer := Pointer(-1, 0.0, 0.0, 0.0, 0.0, false, false, Rgb(30.0, 0.0, 300.0))

  /** createFBO(unit, w, h, ..., filter). */
  method CreateFbo(gl: Gl, unit: nat, w: int, h: int, filter: Filter) returns (f: Fbo)
    requires gl.Valid()
    modifies gl`attachments, gl`nextHandle, gl`contents
    ensures gl.Valid()
    ensures f.unit == unit && f.width == w && f.height == h && f.filter == filter
    ensures f.framebuffer !in old(gl.attachments) && gl.attachments == old(gl.attachments)[f.framebuffer := unit]
    ensures gl.contents == old(gl.contents)[unit := Cleared]
    ensures gl.nextHandle == old(gl.nextHandle) + 1
  {
    var fb := gl.CreateFramebuffer(unit);
    f := Fbo(fb, unit, w, h, filter);
  }

  /** createDoubleFBO(unit, ...): halves on `unit` and `unit + 1`. */
  method CreateDoubleFbo(gl: Gl, unit: nat, w: int, h: int, filter: Filter) returns (b: Pair)
    requires gl.Valid()
    modifies gl`attachments, gl`nextHandle, gl`contents
    ensures gl.Valid()
    ensures b.first.unit == unit && b.second.unit == unit + 1
    ensures b.first.width == w && b.first.height == h && b.first.filter == filter
    ensures b.second.width == w && b.second.height == h && b.second.filter == filter
    ensures b.first.framebuffer !in old(gl.attachments) && b.second.framebuffer !in old(gl.attachments)
    ensures b.first.framebuffer != b.second.framebuffer
    ensures gl.attachments == old(gl.attachments)[b.first.framebuffer := unit][b.second.framebuffer := unit + 1]
    ensures gl.contents == old(gl.contents)[unit := Cleared][unit + 1 := Cleared]
    ensures gl.nextHandle == old(gl.nextHandle) + 2
  {
    var f1 := CreateFbo(gl, unit, w, h, filter);
    var f2 := CreateFbo(gl, unit + 1, w, h, filter);
    b := Pair(f1, f2);
  }

  /** f's framebuffer has f's texture attached, at the simulation size. */
  predicate Fits(gl: Gl, f: Fbo, w: int, h: int)
    reads gl`attachments
  {
    f.framebuffer in gl.attachments && gl.attachments[f.framebuffer] == f.unit && f.width == w && f.height == h
  }

  /** The eight framebuffers sit on the units initFramebuffers gives them,
      each attached to its own texture at the simulation size. */
  predicate Installed(gl: Gl, l: Layout, w: int, h: int)
    reads gl`attachments
  {
    && LayoutValid(l)
    && Fits(gl, l.density.first, w, h) && Fits(gl, l.density.second, w, h)
    && Fits(gl, l.velocity.first, w, h) && Fits(gl, l.velocity.second, w, h)
    && Fits(gl, l.pressure.first, w, h) && Fits(gl, l.pressure.second, w, h)
    && Fits(gl, l.divergence, w, h) && Fits(gl, l.curl, w, h)
  }

  /** A swap only exchanges the roles of two installed framebuffers. */
  lemma SwapKeepsInstalled(gl: Gl, l: Layout, b: Buffer, w: int, h: int)
    requires Installed(gl, l, w, h)
    ensures Installed(gl, SwapIn(l, b), w, h)
  {
  }

  /** initFramebuffers: the simulation size is the drawing buffer's size
      `>> TEXTURE_DOWNSAMPLE`; density and velocity filter linearly when
      linear filtering of float textures is supported, the other three always
      sample the nearest texel. */
  method InitFramebuffers(gl: Gl, drawingWidth: int, drawingHeight: int, supportLinearFloat: bool)
    returns (density: Pair, velocity: Pair, divergence: Fbo, curl: Fbo, pressure: Pair,
             textureWidth: int, textureHeight: int)
    requires gl.Valid()
    modifies gl`attachments, gl`nextHandle, gl`contents
    ensures gl.Valid()
    ensures textureWidth == ShiftRight(drawingWidth, TextureDownsample)
    ensures textureHeight == ShiftRight(drawingHeight, TextureDownsample)
    ensures density.first.unit == 0 && density.second.unit == 1 && velocity.first.unit == 2 && velocity.second.unit == 3
    ensures divergence.unit == 4 && curl.unit == 5 && pressure.first.unit == 6 && pressure.second.unit == 7
    ensures Installed(gl, Layout(density, velocity, pressure, divergence, curl), textureWidth, textureHeight)
    ensures var linear := if supportLinearFloat then Linear else Nearest;
      density.first.filter == density.second.filter == velocity.first.filter == velocity.second.filter == linear
    ensures divergence.filter == curl.filter == pressure.first.filter == pressure.second.filter == Nearest
    ensures gl.contents == old(gl.contents)[0 := Cleared][1 := Cleared][2 := Cleared][3 := Cleared]
      [4 := Cleared][5 := Cleared][6 := Cleared][7 := Cleared]
    ensures forall u :: 0 <= u < 8 ==> gl.Read(u) == Cleared
    ensures gl.nextHandle == old(gl.nextHandle) + 8
  {
    textureWidth := ShiftRight(drawingWidth, TextureDownsample);
    textureHeight := ShiftRight(drawingHeight, TextureDownsample);
    var linear := if supportLinearFloat then Linear else Nearest;
    density := CreateDoubleFbo(gl, 0, textureWidth, textureHeight, linear);
    velocity := CreateDoubleFbo(gl, 2, textureWidth, textureHeight, linear);
    divergence := CreateFbo(gl, 4, textureWidth, textureHeight, Nearest);
    curl := CreateFbo(gl, 5, textureWidth, textureHeight, Nearest);
    pressure := CreateDoubleFbo(gl, 6, textureWidth, textureHeight, Nearest);
  }

  /** The GL half of the mount effect: a fresh context, the resize check
      (which runs initFramebuffers once more when the canvas's size differs
      from its client size) and the unconditional initFramebuffers. The
      framebuffers of the first run, if any, are replaced and never used. */
  method OpenContext(initialWidth: int, initialHeight: int, clientWidth: int, clientHeight: int, supportLinearFloat: bool)
    returns (gl: Gl, density: Pair, velocity: Pair, divergence: Fbo, curl: Fbo, pressure: Pair,
             textureWidth: int, textureHeight: int)
    ensures fresh(gl) && gl.Valid() && gl.program == None && gl.uniforms == map[] && gl.screen == Cleared
    ensures textureWidth == ShiftRight(clientWidth, TextureDownsample)
    ensures textureHeight == ShiftRight(clientHeight, TextureDownsample)
    ensures Installed(gl, Layout(density, velocity, pressure, divergence, curl), textureWidth, textureHeight)
    ensures density.first.unit == 0 && velocity.first.unit == 2 && pressure.first.unit == 6
    ensures density.first.filter == velocity.first.filter == (if supportLinearFloat then Linear else Nearest)
    ensures pressure.first.filter == divergence.filter == curl.filter == Nearest
    ensures forall u :: 0 <= u < 8 ==> gl.Read(u) == Cleared
    ensures gl.nextHandle == if initialWidth != clientWidth || initialHeight != clientHeight then 16 else 8
  {
    gl := new Gl();
    if initialWidth != clientWidth || initialHeight != clientHeight {
      var d0, v0, dv0, c0, p0, tw0, th0 := InitFramebuffers(gl, clientWidth, clientHeight, supportLinearFloat);
    }
    density, velocity, divergence, curl, pressure, textureWidth, textureHeight :=
      InitFramebuffers(gl, clientWidth, clientHeight, supportLinearFloat);
  }

  // The program binds and uniform settings of the passes. Each sets what
  // the component sets, in its order; the draws are the canvas's.

  /** The velocity half of advection: the program and all five uniforms,
      with velocity as both the field and the advected source. */
  method BindVelocityAdvection(gl: Gl, texel: UniformValue, velocity: nat, dt: real)
    modifies gl`program, gl`uniforms
    ensures gl.program == Some(AdvectionProgram)
    ensures gl.Get(AdvectionProgram, TexelSize) == texel && gl.Get(AdvectionProgram, Dt) == Float(dt)
    ensures gl.Get(AdvectionProgram, UVelocity) == Int(velocity)
    ensures gl.SampledUnits(AdvectionProgram) == [velocity, velocity]
    ensures gl.Settings(AdvectionProgram) == [texel, Float(dt), Float(VelocityDissipation)]
  {
    gl.UseProgram(AdvectionProgram);
    gl.SetUniform(AdvectionProgram, TexelSize, texel);
    gl.SetUniform(AdvectionProgram, UVelocity, Int(velocity));
    gl.SetUniform(AdvectionProgram, USource, Int(velocity));
    gl.SetUniform(AdvectionProgram, Dt, Float(dt));
    gl.SetUniform(AdvectionProgram, Dissipation, Float(VelocityDissipation));
  }

  /** The density half: only uSource and the dissipation change; uVelocity,
      the texel size and dt keep the values they had. */
  method RetargetAdvection(gl: Gl, source: nat)
    requires gl.program == Some(AdvectionProgram)
    modifies gl`uniforms
    ensures gl.SampledUnits(AdvectionProgram) == [old(gl.UnitOf(AdvectionProgram, UVelocity)), source]
    ensures gl.Settings(AdvectionProgram)
      == [old(gl.Get(AdvectionProgram, TexelSize)), old(gl.Get(AdvectionProgram, Dt)), Float(DensityDissipation)]
  {
    gl.SetUniform(AdvectionProgram, USource, Int(source));
    gl.SetUniform(AdvectionProgram, Dissipation, Float(DensityDissipation));
  }

  /** The velocity half of splat: the program, the target and the four
      other uniforms. */
  method BindSplat(gl: Gl, target: nat, ratio: UniformValue, point: UniformValue, color: UniformValue)
    modifies gl`program, gl`uniforms
    ensures gl.program == Some(SplatProgram)
    ensures gl.Get(SplatProgram, AspectRatio) == ratio && gl.Get(SplatProgram, Point) == point
    ensures gl.Get(SplatProgram, Radius) == Float(SplatRadius)
    ensures gl.SampledUnits(SplatProgram) == [target]
    ensures gl.Settings(SplatProgram) == [ratio, color, point, Float(SplatRadius)]
  {
    gl.UseProgram(SplatProgram);
    gl.SetUniform(SplatProgram, UTarget, Int(target));
    gl.SetUniform(SplatProgram, AspectRatio, ratio);
    gl.SetUniform(SplatProgram, Point, point);
    gl.SetUniform(SplatProgram, Color, color);
    gl.SetUniform(SplatProgram, Radius, Float(SplatRadius));
  }

  /** The density half of splat: a new target and colour; ratio, point and
      radius carry over. */
  method RetargetSplat(gl: Gl, target: nat, color: UniformValue)
    requires gl.program == Some(SplatProgram)
    modifies gl`uniforms
    ensures gl.SampledUnits(SplatProgram) == [target]
    ensures gl.Settings(SplatProgram)
      == [old(gl.Get(SplatProgram, AspectRatio)), color, old(gl.Get(SplatProgram, Point)), old(gl.Get(SplatProgram, Radius))]
  {
    gl.SetUniform(SplatProgram, UTarget, Int(target));
    gl.SetUniform(SplatProgram, Color, color);
  }

  method BindCurl(gl: Gl, texel: UniformValue, velocity: nat)
    modifies gl`program, gl`uniforms
    ensures gl.program == Some(CurlProgram)
    ensures gl.SampledUnits(CurlProgram) == [velocity] && gl.Settings(CurlProgram) == [texel]
  {
    gl.UseProgram(CurlProgram);
    gl.SetUniform(CurlProgram, TexelSize, texel);
    gl.SetUniform(CurlProgram, UVelocity, Int(velocity));
  }

  method BindVorticity(gl: Gl, texel: UniformValue, velocity: nat, curl: nat, dt: real)
    modifies gl`program, gl`uniforms
    ensures gl.program == Some(VorticityProgram)
    ensures gl.SampledUnits(VorticityProgram) == [velocity, curl]
    ensures gl.Settings(VorticityProgram) == [texel, Float(CurlStrength), Float(dt)]
  {
    gl.UseProgram(VorticityProgram);
    gl.SetUniform(VorticityProgram, TexelSize, texel);
    gl.SetUniform(VorticityProgram, UVelocity, Int(velocity));
    gl.SetUniform(VorticityProgram, UCurl, Int(curl));
    gl.SetUniform(VorticityProgram, Curl, Float(CurlStrength));
    gl.SetUniform(VorticityProgram, Dt, Float(dt));
  }

  method BindDivergence(gl: Gl, texel: UniformValue, velocity: nat)
    modifies gl`program, gl`uniforms
    ensures gl.program == Some(DivergenceProgram)
    ensures gl.SampledUnits(DivergenceProgram) == [velocity] && gl.Settings(DivergenceProgram) == [texel]
  {
    gl.UseProgram(DivergenceProgram);
    gl.SetUniform(DivergenceProgram, TexelSize, texel);
    gl.SetUniform(DivergenceProgram, UVelocity, Int(velocity));
  }

  method BindClear(gl: Gl, pressure: nat)
    modifies gl`program, gl`uniforms
    ensures gl.program == Some(ClearProgram)
    ensures gl.SampledUnits(ClearProgram) == [pressure] && gl.Settings(ClearProgram) == [Float(PressureDissipation)]
  {
    gl.UseProgram(ClearProgram);
    gl.SetUniform(ClearProgram, UTexture, Int(pressure));
    gl.SetUniform(ClearProgram, Value, Float(PressureDissipation));
  }

  /** Before the Jacobi loop: the program, the texel size and uDivergence. */
  method BindPressure(gl: Gl, texel: UniformValue, divergence: nat)
    modifies gl`program, gl`uniforms
    ensures gl.program == Some(PressureProgram)
    ensures gl.Get(PressureProgram, TexelSize) == texel && gl.Get(PressureProgram, UDivergence) == Int(divergence)
  {
    gl.UseProgram(PressureProgram);
    gl.SetUniform(PressureProgram, TexelSize, texel);
    gl.SetUniform(PressureProgram, UDivergence, Int(divergence));
  }

  /** Inside the loop: only uPressure is set. */
  method SetPressureSource(gl: Gl, pressure: nat)
    requires gl.program == Some(PressureProgram)
    modifies gl`uniforms
    ensures gl.Get(PressureProgram, TexelSize) == old(gl.Get(PressureProgram, TexelSize))
    ensures gl.Get(PressureProgram, UDivergence) == old(gl.Get(PressureProgram, UDivergence))
    ensures gl.SampledUnits(PressureProgram) == [pressure, old(gl.UnitOf(PressureProgram, UDivergence))]
    ensures gl.Settings(PressureProgram) == [old(gl.Get(PressureProgram, TexelSize))]
  {
    gl.SetUniform(PressureProgram, UPressure, Int(pressure));
  }

  method BindGradient(gl: Gl, texel: UniformValue, pressure: nat, velocity: nat)
    modifies gl`program, gl`uniforms
    ensures gl.program == Some(GradientSubtractProgram)
    ensures gl.SampledUnits(GradientSubtractProgram) == [pressure, velocity]
    ensures gl.Settings(GradientSubtractProgram) == [texel]
  {
    gl.UseProgram(GradientSubtractProgram);
    gl.SetUniform(GradientSubtractProgram, TexelSize, texel);
    gl.SetUniform(GradientSubtractProgram, UPressure, Int(pressure));
    gl.SetUniform(GradientSubtractProgram, UVelocity, Int(velocity));
  }

  method BindDisplay(gl: Gl, density: nat)
    modifies gl`program, gl`uniforms
    ensures gl.program == Some(DisplayProgram)
    ensures gl.SampledUnits(DisplayProgram) == [density] && gl.Settings(DisplayProgram) == []
  {
    gl.UseProgram(DisplayProgram);
    gl.SetUniform(DisplayProgram, UTexture, Int(density));
  }

  /** The component's state while mounted with a WebGL context. */
  class Canvas {
    const gl: Gl
    /** The double buffers: `first` is the half passes read, `second` the
        half they write; `swap` exchanges them. */
    var density: Pair
    var velocity: Pair
    var pressure: Pair
    var divergence: Fbo
    var curl: Fbo
    var textureWidth: int
    var textureHeight: int
    /** canvas.width and canvas.height; the drawing buffer has the same size. */
    var width: int
    var height: int
    var pointers: seq<Pointer>
    var lastTime: int
    var colorCount: int
    var colorArr: Rgb
    /** Every draw and swap so far, in order. */
    ghost var trace: seq<Event>

    /** The mount effect with a context available: the framebuffers, the
        clock reading and the first colour. */
    constructor (initialWidth: int, initialHeight: int, clientWidth: int, clientHeight: int,
                 supportLinearFloat: bool, now: int, colorDraw: Rgb)
      ensures Valid()
      ensures width == clientWidth && height == clientHeight
      ensures textureWidth == ShiftRight(clientWidth, TextureDownsample)
      ensures textureHeight == ShiftRight(clientHeight, TextureDownsample)
      ensures density.first.unit == 0 && velocity.first.unit == 2 && pressure.first.unit == 6
      ensures density.first.filter == velocity.first.filter == (if supportLinearFloat then Linear else Nearest)
      ensures pressure.first.filter == divergence.filter == curl.filter == Nearest
      ensures Contents() == Fields(Buffered(Cleared, Cleared), Buffered(Cleared, Cleared), Buffered(Cleared, Cleared), Cleared, Cleared)
      ensures pointers == [InitialPointer] && lastTime == now
      ensures colorCount == 0 && colorArr == Rgb(colorDraw.r + 0.2, colorDraw.g + 0.2, colorDraw.b + 0.2)
      ensures trace == [] && gl.program == None && gl.uniforms == map[] && gl.screen == Cleared
    {
      var g, d, v, dv, c, p, tw, th := OpenContext(initialWidth, initialHeight, clientWidth, clientHeight, supportLinearFloat);
      gl := g;
      density, velocity, pressure, divergence, curl := d, v, p, dv, c;
      textureWidth, textureHeight := tw, th;
      width, height := clientWidth, clientHeight;
      pointers := [InitialPointer];
      lastTime := now;
      colorCount := 0;
      colorArr := Rgb(colorDraw.r + 0.2, colorDraw.g + 0.2, colorDraw.b + 0.2);
      trace := [];
    }

    function Roles(): Layout
      reads this`density, this`velocity, this`pressure, this`divergence, this`curl
    {
      Layout(density, velocity, pressure, divergence, curl)
    }

    function Sizes(): Sizes
      reads this`textureWidth, this`textureHeight, this`width, this`height
    {
      SmokeFrame.Sizes(textureWidth, textureHeight, width, height)
    }

    function Buffer(b: Pair): Buffered
      reads gl`contents
    {
      Buffered(gl.Read(b.first.unit), gl.Read(b.second.unit))
    }

    /** The contents of the eight simulation textures, by role. */
    function Contents(): Fields
      reads this`density, this`velocity, this`pressure, this`divergence, this`curl, gl`contents
    {
      var l := Roles();
      Fields(Buffer(l.density), Buffer(l.velocity), Buffer(l.pressure), gl.Read(divergence.unit), gl.Read(curl.unit))
    }

    ghost predicate Valid()
      reads this`density, this`velocity, this`pressure, this`divergence, this`curl, this`textureWidth, this`textureHeight,
        this`pointers, this`colorCount, gl`attachments, gl`nextHandle
    {
      && gl.Valid()
      && Installed(gl, Roles(), textureWidth, textureHeight)
      && |pointers| >= 1
      && 0 <= colorCount <= 25
    }

    /** blit(framebuffer). */
    method Blit(fb: nat)
      requires gl.program.Some? && fb in gl.attachments
      modifies this`trace, gl`contents
      ensures trace == old(trace) + [Draw(gl.program.value, gl.SampledUnits(gl.program.value), Target(fb, gl.attachments[fb]))]
      ensures gl.contents == old(gl.contents)[gl.attachments[fb] := old(gl.Output(gl.program.value))]
    {
      var e := gl.DrawTo(fb);
      trace := trace + [e];
    }

    /** `<buffer>.swap()`. */
    method SwapBuffer(b: Buffer)
      requires Valid()
      modifies this`trace, this`density, this`velocity, this`pressure
      ensures Valid()
      ensures Roles() == SwapIn(old(Roles()), b)
      ensures trace == old(trace) + [Swapped(b)]
    {
      SwapKeepsInstalled(gl, Roles(), b, textureWidth, textureHeight);
      match b {
        case DensityBuffer => density := Pair(density.second, density.first);
        case VelocityBuffer => velocity := Pair(velocity.second, velocity.first);
        case PressureBuffer => pressure := Pair(pressure.second, pressure.first);
      }
      trace := trace + [Swapped(b)];
    }

    /** `blit(<b>.second[1]); <b>.swap();`: a draw with the bound program
        into the buffer's second half, after which that half becomes first. */
    method RenderInto(b: Buffer)
      requires Valid() && gl.program.Some?
      modifies this`trace, gl`contents, this`density, this`velocity, this`pressure
      ensures Valid()
      ensures Roles() == SwapIn(old(Roles()), b)
      ensures Contents() == PushInto(old(Contents()), b, old(gl.Output(gl.program.value)))
      ensures trace == old(trace) + [Draw(gl.program.value, gl.SampledUnits(gl.program.value), Into(PairOf(old(Roles()), b).second)),
        Swapped(b)]
    {
      var target := PairOf(Roles(), b).second;
      Blit(target.framebuffer);
      SwapBuffer(b);
    }

    /** `blit(<f>[1])` for the divergence or the curl framebuffer. */
    method RenderOnto(f: Fbo)
      requires Valid() && gl.program.Some? && (f == divergence || f == curl)
      modifies this`trace, gl`contents
      ensures Valid()
      ensures Contents() == if f == divergence then old(Contents()).(divergence := old(gl.Output(gl.program.value)))
        else old(Contents()).(curl := old(gl.Output(gl.program.value)))
      ensures trace == old(trace) + [Draw(gl.program.value, gl.SampledUnits(gl.program.value), Into(f))]
    {
      Blit(f.framebuffer);
    }

    /** The first half of the advection block: bind the advection program,
        set all five of its uniforms with velocity as both the field and the
        source, draw into velocity's second half and swap. */
    method AdvectVelocity(dt: real)
      requires Valid()
      modifies this`trace, gl`contents, gl`uniforms, gl`program, this`density, this`velocity, this`pressure
      ensures Valid()
      ensures Roles() == SwapIn(old(Roles()), VelocityBuffer)
      ensures var v := old(Contents()).velocity.current;
        Contents() == PushInto(old(Contents()), VelocityBuffer, Advected(v, v, Sizes(), dt, VelocityDissipation))
      ensures trace == old(trace) + AdvectionTrace(old(Roles()).velocity, old(Roles()).density)[..2]
      ensures gl.program == Some(AdvectionProgram)
      ensures gl.Get(AdvectionProgram, UVelocity) == Int(old(velocity.first.unit)) == Int(velocity.second.unit)
      ensures gl.Get(AdvectionProgram, TexelSize) == Reciprocals(textureWidth, textureHeight)
      ensures gl.Get(AdvectionProgram, Dt) == Float(dt)
    {
      ghost var start := Contents();
      var v := velocity.first;
      BindVelocityAdvection(gl, Reciprocals(textureWidth, textureHeight), v.unit, dt);
      assert gl.Output(AdvectionProgram) == Advected(start.velocity.current, start.velocity.current, Sizes(), dt, VelocityDissipation);
      RenderInto(VelocityBuffer);
    }

    /** The second half: only uSource and the dissipation are set again, so
        density moves along the velocity that uVelocity still names, the
        half that was current before the velocity swap. */
    method AdvectDensity(dt: real)
      requires Valid() && gl.program == Some(AdvectionProgram)
      requires gl.Get(AdvectionProgram, UVelocity) == Int(velocity.second.unit)
      requires gl.Get(AdvectionProgram, TexelSize) == Reciprocals(textureWidth, textureHeight)
      requires gl.Get(AdvectionProgram, Dt) == Float(dt)
      modifies this`trace, gl`contents, gl`uniforms, this`density, this`velocity, this`pressure
      ensures Valid()
      ensures Roles() == SwapIn(old(Roles()), DensityBuffer)
      ensures Contents() == PushInto(old(Contents()), DensityBuffer,
        Advected(old(Contents()).velocity.previous, old(Contents()).density.current, Sizes(), dt, DensityDissipation))
      ensures trace == old(trace) + [Draw(AdvectionProgram, [old(velocity.second.unit), old(density.first.unit)],
        Into(old(density.second))), Swapped(DensityBuffer)]
    {
      ghost var start := Contents();
      var d := density.first;
      RetargetAdvection(gl, d.unit);
      assert gl.Output(AdvectionProgram) == Advected(start.velocity.previous, start.density.current, Sizes(), dt, DensityDissipation);
      RenderInto(DensityBuffer);
    }

    /** The advection block of update. */
    method AdvectionPass(dt: real)
      requires Valid()
      modifies this`trace, gl`contents, gl`uniforms, gl`program, this`density, this`velocity, this`pressure
      ensures Valid()
      ensures Roles() == SwapIn(SwapIn(old(Roles()), VelocityBuffer), DensityBuffer)
      ensures Contents() == AdvectionStep(old(Contents()), Sizes(), dt)
      ensures trace == old(trace) + AdvectionTrace(old(Roles()).velocity, old(Roles()).density)
    {
      ghost var l := Roles();
      AdvectVelocity(dt);
      AdvectDensity(dt);
      assert AdvectionTrace(l.velocity, l.density) == AdvectionTrace(l.velocity, l.density)[..2]
        + [Draw(AdvectionProgram, [l.velocity.first.unit, l.density.first.unit], Into(l.density.second)), Swapped(DensityBuffer)];
    }

    /** The velocity half of `splat`: bind the splat program, set all its
        uniforms with the impulse (dx, -dy, 1), draw into velocity and swap. */
    method SplatVelocity(x: real, y: real, dx: real, dy: real)
      requires Valid()
      modifies this`trace, gl`contents, gl`uniforms, gl`program, this`density, this`velocity, this`pressure
      ensures Valid()
      ensures Roles() == SwapIn(old(Roles()), VelocityBuffer)
      ensures Contents() == PushInto(old(Contents()), VelocityBuffer,
        Splatted(old(Contents()).velocity.current, Sizes(), x, y, Vec3(dx, -dy, 1.0)))
      ensures trace == old(trace) + SplatTrace(old(Roles()).velocity, old(Roles()).density)[..2]
      ensures gl.program == Some(SplatProgram)
      ensures gl.Get(SplatProgram, AspectRatio) == Ratio(width, height)
      ensures gl.Get(SplatProgram, Point) == SplatPoint(x, y, width, height)
      ensures gl.Get(SplatProgram, Radius) == Float(SplatRadius)
    {
      ghost var start := Contents();
      var v := velocity.first;
      BindSplat(gl, v.unit, Ratio(width, height), SplatPoint(x, y, width, height), Vec3(dx, -dy, 1.0));
      assert gl.Output(SplatProgram) == Splatted(start.velocity.current, Sizes(), x, y, Vec3(dx, -dy, 1.0));
      RenderInto(VelocityBuffer);
    }

    /** The density half: only the target and the colour (0.3 times the
        pointer's colour) are set again; point, ratio and radius carry over. */
    method SplatDensity(x: real, y: real, color: Rgb)
      requires Valid() && gl.program == Some(SplatProgram)
      requires gl.Get(SplatProgram, AspectRatio) == Ratio(width, height)
      requires gl.Get(SplatProgram, Point) == SplatPoint(x, y, width, height)
      requires gl.Get(SplatProgram, Radius) == Float(SplatRadius)
      modifies this`trace, gl`contents, gl`uniforms, this`density, this`velocity, this`pressure
      ensures Valid()
      ensures Roles() == SwapIn(old(Roles()), DensityBuffer)
      ensures Contents() == PushInto(old(Contents()), DensityBuffer,
        Splatted(old(Contents()).density.current, Sizes(), x, y, Vec3(color.r * 0.3, color.g * 0.3, color.b * 0.3)))
      ensures trace == old(trace) + [Draw(SplatProgram, [old(density.first.unit)], Into(old(density.second))), Swapped(DensityBuffer)]
    {
      ghost var start := Contents();
      var d := density.first;
      RetargetSplat(gl, d.unit, Vec3(color.r * 0.3, color.g * 0.3, color.b * 0.3));
      assert gl.Output(SplatProgram) == Splatted(start.density.current, Sizes(), x, y, Vec3(color.r * 0.3, color.g * 0.3, color.b * 0.3));
      RenderInto(DensityBuffer);
    }

    /** splat(x, y, dx, dy, color). */
    method Splat(x: real, y: real, dx: real, dy: real, color: Rgb)
      requires Valid()
      modifies this`trace, gl`contents, gl`uniforms, gl`program, this`density, this`velocity, this`pressure
      ensures Valid()
      ensures Roles() == SwapIn(SwapIn(old(Roles()), VelocityBuffer), DensityBuffer)
      ensures Contents() == SplatStep(old(Contents()), Sizes(), x, y, dx, dy, color)
      ensures trace == old(trace) + SplatTrace(old(Roles()).velocity, old(Roles()).density)
    {
      ghost var l := Roles();
      SplatVelocity(x, y, dx, dy);
      SplatDensity(x, y, color);
      assert SplatTrace(l.velocity, l.density) == SplatTrace(l.velocity, l.density)[..2]
        + [Draw(SplatProgram, [l.density.first.unit], Into(l.density.second)), Swapped(DensityBuffer)];
    }

    /** The state after the pointer loop has visited ps[..i], starting from
        contents t0, layout l0 and trace tr0. */
    ghost predicate SplatLoopAt(ps: seq<Pointer>, t0: Fields, l0: Layout, tr0: seq<Event>, i: nat)
      reads this, gl`attachments, gl`nextHandle, gl`contents
    {
      && i <= |ps| && Valid()
      && pointers == Settled(ps[..i]) + ps[i..]
      && Contents() == SplatMoved(t0, ps[..i], Sizes())
      && Roles() == SplatsLayout(l0, MovedCount(ps[..i]))
      && trace == tr0 + SplatsTrace(l0.velocity, l0.density, MovedCount(ps[..i]))
    }

    /** One iteration of the pointer loop: splat the i-th pointer if it
        moved, and clear its flag. */
    method VisitPointer(ghost ps: seq<Pointer>, ghost t0: Fields, ghost l0: Layout, ghost tr0: seq<Event>, i: nat)
      requires SplatLoopAt(ps, t0, l0, tr0, i) && i < |ps|
      modifies this`pointers, this`trace, gl`contents, gl`uniforms, gl`program, this`density, this`velocity, this`pressure
      ensures SplatLoopAt(ps, t0, l0, tr0, i + 1)
    {
      PointerLoopStep(t0, ps, i, Sizes());
      SettleNext(ps, pointers, i);
      var p := pointers[i];
      if p.moved {
        SplatsStep(tr0, l0, MovedCount(ps[..i]));
        Splat(p.x, p.y, p.dx, p.dy, p.color);
        pointers := pointers[i := p.(moved := false)];
      }
    }

    /** The loop's invariant holds before the first iteration. */
    lemma SplatLoopStarts()
      requires Valid()
      ensures SplatLoopAt(pointers, Contents(), Roles(), trace, 0)
    {
      assert pointers[..0] == [] && pointers[0..] == pointers && Settled([]) == [];
    }

    /** After the last iteration the invariant is the loop's contract. */
    lemma SplatLoopEnds(ps: seq<Pointer>, t0: Fields, l0: Layout, tr0: seq<Event>)
      requires SplatLoopAt(ps, t0, l0, tr0, |ps|)
      ensures Valid() && pointers == Settled(ps) && Contents() == SplatMoved(t0, ps, Sizes())
      ensures Roles() == SplatsLayout(l0, MovedCount(ps))
      ensures trace == tr0 + SplatsTrace(l0.velocity, l0.density, MovedCount(ps))
    {
      assert ps[..|ps|] == ps && ps[|ps|..] == [];
    }

    /** The pointer loop of update: a splat for every pointer whose `moved`
        is set, in list order, clearing the flag. */
    method SplatPointers()
      requires Valid()
      modifies this`pointers, this`trace, gl`contents, gl`uniforms, gl`program, this`density, this`velocity, this`pressure
      ensures Valid()
      ensures pointers == Settled(old(pointers))
      ensures Contents() == SplatMoved(old(Contents()), old(pointers), Sizes())
      ensures Roles() == SplatsLayout(old(Roles()), MovedCount(old(pointers)))
      ensures trace == old(trace) + SplatsTrace(old(Roles()).velocity, old(Roles()).density, MovedCount(old(pointers)))
    {
      ghost var ps, t0, l0, tr0 := pointers, Contents(), Roles(), trace;
      SplatLoopStarts();
      var i := 0;
      while i < |pointers|
        invariant SplatLoopAt(ps, t0, l0, tr0, i) && |pointers| == |ps|
      {
        VisitPointer(ps, t0, l0, tr0, i);
        i := i + 1;
      }
      SplatLoopEnds(ps, t0, l0, tr0);
    }

    /** The curl pass: curl of the current velocity into the curl framebuffer. */
    method CurlPass()
      requires Valid()
      modifies this`trace, gl`contents, gl`uniforms, gl`program
      ensures Valid() && Roles() == old(Roles())
      ensures Contents() == CurlStep(old(Contents()), Sizes())
      ensures trace == old(trace) + CurlTrace(Roles().velocity, curl)
    {
      ghost var start := Contents();
      BindCurl(gl, Reciprocals(textureWidth, textureHeight), velocity.first.unit);
      assert gl.Output(CurlProgram) == CurlOf(start.velocity.current, Sizes());
      RenderOnto(curl);
    }

    /** The vorticity pass: velocity pushed by the curl's confinement force. */
    method VorticityPass(dt: real)
      requires Valid()
      modifies this`trace, gl`contents, gl`uniforms, gl`program, this`density, this`velocity, this`pressure
      ensures Valid()
      ensures Roles() == SwapIn(old(Roles()), VelocityBuffer)
      ensures Contents() == VorticityStep(old(Contents()), Sizes(), dt)
      ensures trace == old(trace) + VorticityTrace(old(Roles()).velocity, curl)
    {
      ghost var start := Contents();
      BindVorticity(gl, Reciprocals(textureWidth, textureHeight), velocity.first.unit, curl.unit, dt);
      assert gl.Output(VorticityProgram) == Confined(start.velocity.current, start.curl, Sizes(), dt);
      RenderInto(VelocityBuffer);
    }

    /** The divergence pass. */
    method DivergencePass()
      requires Valid()
      modifies this`trace, gl`contents, gl`uniforms, gl`program
      ensures Valid() && Roles() == old(Roles())
      ensures Contents() == DivergenceStep(old(Contents()), Sizes())
      ensures trace == old(trace) + DivergenceTrace(Roles().velocity, divergence)
    {
      ghost var start := Contents();
      BindDivergence(gl, Reciprocals(textureWidth, textureHeight), velocity.first.unit);
      assert gl.Output(DivergenceProgram) == DivergenceOf(start.velocity.current, Sizes());
      RenderOnto(divergence);
    }

    /** The clear pass: last frame's pressure scaled by PRESSURE_DISSIPATION. */
    method ClearPressure()
      requires Valid()
      modifies this`trace, gl`contents, gl`uniforms, gl`program, this`density, this`velocity, this`pressure
      ensures Valid()
      ensures Roles() == SwapIn(old(Roles()), PressureBuffer)
      ensures Contents() == ClearStep(old(Contents()))
      ensures trace == old(trace) + ClearTrace(old(Roles()).pressure)
    {
      ghost var start := Contents();
      BindClear(gl, pressure.first.unit);
      assert gl.Output(ClearProgram) == Scaled(start.pressure.current);
      RenderInto(PressureBuffer);
    }

    /** One Jacobi iteration: uPressure names the current pressure half;
        texel size and uDivergence are whatever was set before the loop. */
    method Relax()
      requires Valid() && gl.program == Some(PressureProgram)
      requires gl.Get(PressureProgram, TexelSize) == Reciprocals(textureWidth, textureHeight)
      requires gl.Get(PressureProgram, UDivergence) == Int(divergence.unit)
      modifies this`trace, gl`contents, gl`uniforms, this`density, this`velocity, this`pressure
      ensures Valid() && gl.program == Some(PressureProgram)
      ensures gl.Get(PressureProgram, TexelSize) == Reciprocals(textureWidth, textureHeight)
      ensures gl.Get(PressureProgram, UDivergence) == Int(divergence.unit)
      ensures Roles() == SwapIn(old(Roles()), PressureBuffer)
      ensures Contents() == PushInto(old(Contents()), PressureBuffer,
        Relaxed(old(Contents()).pressure.current, old(Contents()).divergence, Sizes()))
      ensures trace == old(trace) + JacobiTrace(old(Roles()).pressure, divergence)
    {
      ghost var start := Contents();
      SetPressureSource(gl, pressure.first.unit);
      assert gl.Output(PressureProgram) == Relaxed(start.pressure.current, start.divergence, Sizes());
      RenderInto(PressureBuffer);
    }

    /** The state of the pressure solve after i iterations, started from
        contents t0, layout l0 and trace tr0. */
    ghost predicate SolvedAt(t0: Fields, l0: Layout, tr0: seq<Event>, i: nat)
      reads this, gl`attachments, gl`nextHandle, gl`contents, gl`program, gl`uniforms
    {
      && Valid() && gl.program == Some(PressureProgram)
      && gl.Get(PressureProgram, TexelSize) == Reciprocals(textureWidth, textureHeight)
      && gl.Get(PressureProgram, UDivergence) == Int(divergence.unit)
      && Contents() == JacobiSteps(t0, Sizes(), i)
      && Roles() == l0.(pressure := Flip(l0.pressure, i))
      && trace == tr0 + JacobisTrace(l0.pressure, divergence, i)
    }

    /** One iteration of the solve's loop. */
    method Iterate(ghost t0: Fields, ghost l0: Layout, ghost tr0: seq<Event>, ghost i: nat)
      requires SolvedAt(t0, l0, tr0, i)
      modifies this`trace, gl`contents, gl`uniforms, this`density, this`velocity, this`pressure
      ensures SolvedAt(t0, l0, tr0, i + 1)
    {
      Relax();
      FlipTwice(l0.pressure, i, 1);
    }

    /** The pressure solve: uDivergence is set once, then PRESSURE_ITERATIONS
        Jacobi iterations, each swapping the pressure buffer. */
    method SolvePressure()
      requires Valid()
      modifies this`trace, gl`contents, gl`uniforms, gl`program, this`density, this`velocity, this`pressure
      ensures Valid()
      ensures Roles() == old(Roles()).(pressure := Flip(old(Roles()).pressure, PressureIterations))
      ensures Contents() == JacobiSteps(old(Contents()), Sizes(), PressureIterations)
      ensures trace == old(trace) + JacobisTrace(old(Roles()).pressure, divergence, PressureIterations)
    {
      ghost var t0, l0, tr0 := Contents(), Roles(), trace;
      BindPressure(gl, Reciprocals(textureWidth, textureHeight), divergence.unit);
      var i := 0;
      while i < PressureIterations
        invariant 0 <= i <= PressureIterations && SolvedAt(t0, l0, tr0, i)
      {
        Iterate(t0, l0, tr0, i);
        i := i + 1;
      }
    }

    /** The gradient-subtraction pass: velocity minus the pressure gradient. */
    method SubtractGradient()
      requires Valid()
      modifies this`trace, gl`contents, gl`uniforms, gl`program, this`density, this`velocity, this`pressure
      ensures Valid()
      ensures Roles() == SwapIn(old(Roles()), VelocityBuffer)
      ensures Contents() == GradientStep(old(Contents()), Sizes())
      ensures trace == old(trace) + GradientTrace(old(Roles()).pressure, old(Roles()).velocity)
    {
      ghost var start := Contents();
      BindGradient(gl, Reciprocals(textureWidth, textureHeight), pressure.first.unit, velocity.first.unit);
      assert gl.Output(GradientSubtractProgram) == Projected(start.pressure.current, start.velocity.current, Sizes());
      RenderInto(VelocityBuffer);
    }

    /** The display pass: the current density drawn onto the canvas. */
    method Display()
      requires Valid()
      modifies this`trace, gl`screen, gl`uniforms, gl`program
      ensures Valid() && Roles() == old(Roles()) && Contents() == old(Contents())
      ensures gl.screen == Displayed(Contents().density.current)
      ensures trace == old(trace) + DisplayTrace(Roles().density)
    {
      BindDisplay(gl, density.first.unit);
      var e := gl.DrawToScreen();
      trace := trace + [e];
    }

    /** Advection and the pointer loop. */
    method Transport(dt: real)
      requires Valid()
      modifies this`pointers, this`trace, gl`contents, gl`uniforms, gl`program, this`density, this`velocity, this`pressure
      ensures Valid()
      ensures pointers == Settled(old(pointers))
      ensures Contents() == SplatMoved(AdvectionStep(old(Contents()), Sizes(), dt), old(pointers), Sizes())
      ensures Roles() == TransportLayout(old(Roles()), MovedCount(old(pointers)))
      ensures trace == old(trace) + TransportTrace(old(Roles()), MovedCount(old(pointers)))
    {
      ghost var l := Roles();
      AdvectionPass(dt);
      ghost var k := MovedCount(pointers);
      SplatPointers();
      FlipTwice(l.velocity, 1, k);
      FlipTwice(l.density, 1, k);
    }

    /** Curl, vorticity confinement and divergence. */
    method Forces(dt: real)
      requires Valid()
      modifies this`trace, gl`contents, gl`uniforms, gl`program, this`density, this`velocity, this`pressure
      ensures Valid()
      ensures Contents() == ForcesStep(old(Contents()), Sizes(), dt)
      ensures Roles() == SwapIn(old(Roles()), VelocityBuffer)
      ensures trace == old(trace) + ForcesTrace(old(Roles()))
    {
      ghost var v, tr0 := velocity, trace;
      CurlPass();
      VorticityPass(dt);
      DivergencePass();
      AppendStages(tr0, CurlTrace(v, curl), VorticityTrace(v, curl), DivergenceTrace(Flip(v, 1), divergence));
    }

    /** The projection: clear, the pressure solve and gradient subtraction. */
    method Project()
      requires Valid()
      modifies this`trace, gl`contents, gl`uniforms, gl`program, this`density, this`velocity, this`pressure
      ensures Valid()
      ensures Contents() == ProjectStep(old(Contents()), Sizes())
      ensures var l := old(Roles());
        Roles() == l.(pressure := Flip(l.pressure, 1 + PressureIterations), velocity := Flip(l.velocity, 1))
      ensures trace == old(trace) + ProjectTrace(old(Roles()))
    {
      ghost var l, tr0 := Roles(), trace;
      ClearPressure();
      SolvePressure();
      FlipTwice(l.pressure, 1, PressureIterations);
      SubtractGradient();
      AppendStages(tr0, ClearTrace(l.pressure), JacobisTrace(Flip(l.pressure, 1), divergence, PressureIterations),
        GradientTrace(Flip(l.pressure, 1 + PressureIterations), l.velocity));
    }

    /** Everything after the pointer loop: the forces, then the projection. */
    method Solve(dt: real)
      requires Valid()
      modifies this`trace, gl`contents, gl`uniforms, gl`program, this`density, this`velocity, this`pressure
      ensures Valid()
      ensures Contents() == ProjectStep(ForcesStep(old(Contents()), Sizes(), dt), Sizes())
      ensures var l := old(Roles());
        Roles() == l.(pressure := Flip(l.pressure, 1 + PressureIterations), velocity := Flip(l.velocity, 2))
      ensures trace == old(trace) + SolveTrace(old(Roles()))
    {
      ghost var l, tr0 := Roles(), trace;
      Forces(dt);
      ghost var l1 := Roles();
      Project();
      assert trace == tr0 + (ForcesTrace(l) + ProjectTrace(l1));
      FlipTwice(l.velocity, 1, 1);
    }

    /** The simulation passes of update, with the time step dt. */
    method Simulate(dt: real)
      requires Valid()
      modifies this`pointers, this`trace, gl`contents, gl`uniforms, gl`program, this`density, this`velocity, this`pressure
      ensures Valid()
      ensures pointers == Settled(old(pointers))
      ensures Contents() == Frame(old(Contents()), old(pointers), Sizes(), dt)
      ensures Roles() == FrameLayout(old(Roles()), MovedCount(old(pointers)))
      ensures trace == old(trace) + SimulationTrace(old(Roles()), MovedCount(old(pointers)))
    {
      ghost var l, k, tr0 := Roles(), MovedCount(pointers), trace;
      Transport(dt);
      ghost var l1 := Roles();
      Solve(dt);
      assert trace == tr0 + (TransportTrace(l, k) + SolveTrace(l1));
      FlipTwice(l.velocity, 1 + k, 2);
    }

    /** update: one animation frame. `now` and `later` are the two Date.now()
        readings, the one the time step is computed from and the one stored
        as lastTime. The frame's draws and swaps are FrameTrace's, whose
        properties (no aliasing, the swap counts) SmokeFrame proves. */
    method Update(now: int, later: int)
      requires Valid()
      modifies this`lastTime, this`pointers, this`trace, gl`contents, gl`uniforms, gl`program, gl`screen,
        this`density, this`velocity, this`pressure
      ensures Valid() && lastTime == later
      ensures pointers == Settled(old(pointers))
      ensures Contents() == Frame(old(Contents()), old(pointers), Sizes(), ClampedDt(now - old(lastTime)))
      ensures gl.screen == Displayed(Contents().density.current)
      ensures Roles() == FrameLayout(old(Roles()), MovedCount(old(pointers)))
      ensures trace == old(trace) + FrameTrace(old(Roles()), MovedCount(old(pointers)))
    {
      ghost var l, k, tr0 := Roles(), MovedCount(pointers), trace;
      var dt := ClampedDt(now - lastTime);
      lastTime := later;
      Simulate(dt);
      Display();
      FrameByStages(tr0, l, k);
    }

    /** The mousemove listener. The three draws are the Math.random() values
        taken when the colour is replaced. */
    method HandleMouseMove(offsetX: real, offsetY: real, draws: Rgb)
      requires Valid()
      modifies this`colorCount, this`colorArr, this`pointers
      ensures Valid()
      ensures colorCount == NextColorCount(old(colorCount))
      ensures colorArr == if old(colorCount) + 1 > 25 then Rgb(draws.r + 0.2, draws.g + 0.2, draws.b + 0.2) else old(colorArr)
      ensures |pointers| == |old(pointers)| && pointers[1..] == old(pointers)[1..]
      ensures var p, q := old(pointers)[0], pointers[0];
        && q.down && q.moved && q.color == colorArr && q.id == p.id
        && q.dx == (offsetX - p.x) * 10.0 && q.dy == (offsetY - p.y) * 10.0
        && q.x == offsetX && q.y == offsetY
    {
      colorCount := colorCount + 1;
      if colorCount > 25 {
        colorArr := Rgb(draws.r + 0.2, draws.g + 0.2, draws.b + 0.2);
        colorCount := 0;
      }
      var p := pointers[0].(down := true);
      p := p.(color := colorArr);
      p := p.(moved := p.down);
      p := p.(dx := (offsetX - p.x) * 10.0);
      p := p.(dy := (offsetY - p.y) * 10.0);
      p := p.(x := offsetX);
      p := p.(y := offsetY);
      pointers := pointers[0 := p];
    }
  }
}
