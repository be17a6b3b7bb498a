/** The slice of WebGL that test/components/SmokeCanvas.tsx drives, as an
    abstract machine.

    A texture is named by the texture unit it was bound to when it was
    created: every createFBO call activates its own unit and binds a fresh
    texture there. A later initFramebuffers binds new textures to the same
    units, and from then on only those are sampled; the earlier ones stay
    allocated but unused. So "the live texture on unit u" and "unit u" are
    the same thing here. Texture contents are kept
    as terms that record which program produced them from which inputs and
    uniform values; the shader arithmetic itself is not evaluated in this
    module. Shader compilation, viewports, vertex buffers and pixel formats
    are not modelled. */
module SmokeGl {
  import opened Wrappers

  /** The nine linked programs (one per fragment shader). */
  datatype Program =
    | ClearProgram | DisplayProgram | SplatProgram | AdvectionProgram
    | DivergenceProgram | CurlProgram | VorticityProgram | PressureProgram
    | GradientSubtractProgram

  /** The uniform names the shaders declare. */
  datatype Uniform =
    | TexelSize | UVelocity | USource | Dt | Dissipation | UCurl | Curl
    | UPressure | UDivergence | UTexture | Value | UTarget | AspectRatio
    | Point | Color | Radius

  /** What a gl.uniform* call stored. The quantities the component computes by
      dividing by a size are kept as their operands, so a zero size needs no
      special case. */
  datatype UniformValue =
    | Initial                                      // never set: GL's all-zero default
    | Int(i: int)                                  // uniform1i: a texture unit
    | Float(r: real)                               // uniform1f
    | Vec3(x: real, y: real, z: real)              // uniform3f
    | Reciprocals(w: int, h: int)                  // uniform2f(1.0 / w, 1.0 / h)
    | Ratio(w: int, h: int)                        // uniform1f(w / h)
    | SplatPoint(x: real, y: real, w: int, h: int) // uniform2f(x / w, 1.0 - y / h)

  /** The contents of a texture: what `gl.clear` left, or the output of one
      draw with a program, the contents it sampled (in the order its shader
      declares the samplers) and the values of the other uniforms it reads. */
  datatype Field = Cleared | Pass(program: Program, inputs: seq<Field>, params: seq<UniformValue>)

  datatype Filter = Linear | Nearest

  /** The `[texture, framebuffer, unit]` triple createFBO returns, with the
      size and filter its texture was allocated with. */
  datatype Fbo = Fbo(framebuffer: nat, unit: nat, width: int, height: int, filter: Filter)

  /** Where a draw went: the canvas, or a framebuffer and the unit of the
      texture attached to it. */
  datatype Dest = Screen | Target(framebuffer: nat, unit: nat)

  datatype Buffer = DensityBuffer | VelocityBuffer | PressureBuffer

  /** One step of a frame as the component performs it: a draw with the
      program bound at the time, the units its samplers named, and its
      destination; or the swap of one double buffer. */
  datatype Event = Draw(program: Program, sampled: seq<nat>, dest: Dest) | Swapped(buffer: Buffer)

  /** The rendering context: the bound program, every program's uniform
      values, texture contents by unit, the canvas, and which unit's texture
      each framebuffer has as its colour attachment. */
  class Gl {
    var program: Option<Program>
    var uniforms: map<(Program, Uniform), UniformValue>
    var contents: map<nat, Field>
    var screen: Field
    var attachments: map<nat, nat>
    var nextHandle: nat

    /** Framebuffer handles are handed out in increasing order. */
    ghost predicate Valid()
      reads this`attachments, this`nextHandle
    {
      forall fb :: fb in attachments ==> fb < nextHandle
    }

    /** The value a uniform of a program holds now. Values persist per
        program until they are set again. */
    function Get(p: Program, u: Uniform): UniformValue
      reads this`uniforms
    {
      if (p, u) in uniforms then uniforms[(p, u)] else Initial
    }

    /** The unit a sampler uniform names (0 while it has never been set). */
    function UnitOf(p: Program, u: Uniform): nat
      reads this`uniforms
    {
      var v := Get(p, u);
      if v.Int? && v.i >= 0 then v.i else 0
    }

    function Read(unit: nat): Field
      reads this`contents
    {
      if unit in contents then contents[unit] else Cleared
    }

    /** The units a draw with p samples, resolved when the draw happens: the
        values of p's sampler uniforms, in the order its shader declares them. */
    function SampledUnits(p: Program): seq<nat>
      reads this`uniforms
    {
      match p
      case ClearProgram => [UnitOf(p, UTexture)]
      case DisplayProgram => [UnitOf(p, UTexture)]
      case SplatProgram => [UnitOf(p, UTarget)]
      case AdvectionProgram => [UnitOf(p, UVelocity), UnitOf(p, USource)]
      case DivergenceProgram => [UnitOf(p, UVelocity)]
      case CurlProgram => [UnitOf(p, UVelocity)]
      case VorticityProgram => [UnitOf(p, UVelocity), UnitOf(p, UCurl)]
      case PressureProgram => [UnitOf(p, UPressure), UnitOf(p, UDivergence)]
      case GradientSubtractProgram => [UnitOf(p, UPressure), UnitOf(p, UVelocity)]
    }

    /** The values of the other uniforms p's fragment shader reads, in
        declaration order. */
    function Settings(p: Program): seq<UniformValue>
      reads this`uniforms
    {
      match p
      case ClearProgram => [Get(p, Value)]
      case DisplayProgram => []
      case SplatProgram => [Get(p, AspectRatio), Get(p, Color), Get(p, Point), Get(p, Radius)]
      case AdvectionProgram => [Get(p, TexelSize), Get(p, Dt), Get(p, Dissipation)]
      case DivergenceProgram => [Get(p, TexelSize)]
      case CurlProgram => [Get(p, TexelSize)]
      case VorticityProgram => [Get(p, TexelSize), Get(p, Curl), Get(p, Dt)]
      case PressureProgram => [Get(p, TexelSize)]
      case GradientSubtractProgram => [Get(p, TexelSize)]
    }

    /** What a draw with p writes: p applied to the contents of the units it
        samples and to its other uniforms' values. */
    function Output(p: Program): Field
      reads this`uniforms, this`contents
    {
      var units := SampledUnits(p);
      Pass(p, if |units| == 1 then [Read(units[0])] else [Read(units[0]), Read(units[1])], Settings(p))
    }

    constructor ()
      ensures Valid()
      ensures program == None && uniforms == map[] && contents == map[] && screen == Cleared
      ensures attachments == map[] && nextHandle == 0
    {
      program := None;
      uniforms := map[];
      contents := map[];
      screen := Cleared;
      attachments := map[];
      nextHandle := 0;
    }

    /** gl.useProgram. */
    method UseProgram(p: Program)
      modifies this`program
      ensures program == Some(p)
    {
      program := Some(p);
    }

    /** gl.uniform* on a location of the bound program. */
    method SetUniform(p: Program, u: Uniform, v: UniformValue)
      requires program == Some(p)
      modifies this`uniforms
      ensures uniforms == old(uniforms)[(p, u) := v]
    {
      uniforms := uniforms[(p, u) := v];
    }

    /** The GL half of createFBO: a texture on `unit`, a new framebuffer with
        that texture attached, and a clear of it to the clear colour. */
    method CreateFramebuffer(unit: nat) returns (fb: nat)
      requires Valid()
      modifies this`attachments, this`nextHandle, this`contents
      ensures Valid()
      ensures fb !in old(attachments) && attachments == old(attachments)[fb := unit]
      ensures contents == old(contents)[unit := Cleared]
      ensures nextHandle == old(nextHandle) + 1
    {
      fb := nextHandle;
      nextHandle := nextHandle + 1;
      attachments := attachments[fb := unit];
      contents := contents[unit := Cleared];
    }

    /** The `blit` helper with a framebuffer: bind it and draw the
        full-screen quad with the bound program into its texture. */
    method DrawTo(fb: nat) returns (e: Event)
      requires program.Some? && fb in attachments
      modifies this`contents
      ensures e == Event.Draw(program.value, SampledUnits(program.value), Target(fb, attachments[fb]))
      ensures contents == old(contents)[attachments[fb] := old(Output(program.value))]
    {
      var out := Output(program.value);
      e := Event.Draw(program.value, SampledUnits(program.value), Target(fb, attachments[fb]));
      contents := contents[attachments[fb] := out];
    }

    /** The `blit` helper with null: draw onto the canvas. */
    method DrawToScreen() returns (e: Event)
      requires program.Some?
      modifies this`screen
      ensures e == Event.Draw(program.value, SampledUnits(program.value), Screen)
      ensures screen == Output(program.value)
    {
      e := Event.Draw(program.value, SampledUnits(program.value), Screen);
      screen := Output(program.value);
    }
  }
}
