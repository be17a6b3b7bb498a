# kulam.my.id in Dafny

This project models the logic of the kulam.my.id web front ends and of its
mail backend, and proves properties of the model. The parts are:

- **The smoke canvas** (`test/components/SmokeCanvas.tsx`). It is a WebGL stable-fluids
  simulation with three double-buffered textures (density, velocity and
  pressure) and two single ones (divergence and curl). Every frame it runs
  these passes in a fixed order: advection, one splat per moved pointer,
  curl, vorticity confinement, divergence, a pressure clear, 25 Jacobi
  pressure steps, gradient subtraction and display. A mouse handler feeds
  the pointer and cycles the splat colour.
  - `SmokeGl` is the slice of WebGL that the component drives. It holds the
    uniform table, texture contents per texture unit, framebuffer
    attachments and a draw call.
  - `SmokeFrame` is the reference definition of one frame. It fixes the
    texture each pass reads, the texture it writes and the swaps between
    passes, as pure functions and a trace of events. Its lemmas prove what
    the frame promises.
  - `SmokeCanvas` is the component itself, as a class whose methods change
    the GL state step by step. Each method is proved against `SmokeFrame`.
  - `SmokeStencils` evaluates the projection shaders (divergence, curl,
    Jacobi pressure, gradient subtraction and clear) on real grids.
- **The page** (`test/App.tsx`, module `ClockTitle`). A title re-draws its
  font and weight every 100 ms, and a clock line renders
  `year//MM//DD hh:mm:ss`.
- **The mail generator** (`kulam-mailgen/App.tsx`, module `Mailgen`). It
  draws fresh local parts under `@kulam.my.id` and copies the address.
- **The mail backend** (`mail/server.js`, module `MailServer`). It has
  `GET /generate` and `GET /inbox/:address` over a Gmail listing.
- **The anime scene generator** (`animegen/App.tsx` and its
  `PromptForm.tsx` and `ImageDisplay.tsx`, modules `AnimegenApp`,
  `PromptForm` and `ImageDisplay`). It covers the submit guard, the
  loading/error/image state machine and the view it selects.

Shared helpers:
- `RandomDraw`: `Math.random()` as a stream of draws in [0, 1).
- `JsString`: `toString`, `padStart` and `trim`.
- `Wrappers`: `Option`.

Clocks, random draws, the service outcome and the Gmail API are
parameters of the operations that use them.

### Notes on the code's behaviour

- Density is advected by the velocity from before that frame's velocity
  advection. `update` sets the `uVelocity` uniform at line 291 and does not
  rebind it before the density blit at line 300; after the swap at line 296
  that unit holds the previous velocity.
  `SmokeFrame.DensityAdvectedByStartVelocity` states this.
- The splat colour is re-drawn when `colorCount > 25` (lines 515-519), so
  the counter runs 0..25 and the colour changes on every 26th mouse move.
  `SmokeCanvas.ColorReplacedEvery26th` states this.
- `handleMouseMove` stores the raw `offsetX`/`offsetY` (lines 523-526);
  `splat` normalises them, through `x / canvas.width` and
  `1 - y / canvas.height` (line 369).

## Model

| member | source | states |
|---|---|---|
| `RandomDraw.Index` | kulam-mailgen/App.tsx:15 | `Math.floor(Math.random() * n)` is a valid index `0 <= k < n` for every draw in [0, 1) |
| `RandomDraw.PickedFromAlphabet` | kulam-mailgen/App.tsx:11-17 | a name drawn with one draw per character has one character per draw, each from the alphabet |
| `RandomDraw.PickString` | kulam-mailgen/App.tsx:11-18 | the `for` loop appends one `charAt` per draw, so the result is the picked string of the first `length` draws: `length` characters, all from `chars` |
| `JsString.NatToStringShape` | test/App.tsx:41 | `toString` of a natural is all digits and non-empty, one digit exactly below 10, with no leading zero from 10 on |
| `JsString.NatToStringRoundTrip` | test/App.tsx:41 | `toString` of a natural reads back as that natural |
| `JsString.IntToStringRoundTrip` | test/App.tsx:42 | the unpadded year, with its minus sign if negative, reads back as the year |
| `JsString.PadStartShape` | test/App.tsx:41 | `padStart(len, fill)` has length the larger of len and the length of s, ends with `s` and has only `fill` before it |
| `JsString.TrimStartIsSuffix` | animegen/components/PromptForm.tsx:17 | trimming the start removes exactly a whitespace prefix and leaves a suffix that is empty or starts with a non-blank |
| `JsString.TrimEndIsPrefix` | animegen/components/PromptForm.tsx:17 | trimming the end removes exactly a whitespace suffix and leaves a prefix that is empty or ends with a non-blank |
| `JsString.TrimEmptyIff` | animegen/components/PromptForm.tsx:17 | `trim()` is empty (falsy) exactly when the string is all whitespace |
| `ClockTitle.PickFont` | test/App.tsx:20 | the random font is always one of the fourteen listed fonts |
| `ClockTitle.PickWeight` | test/App.tsx:24 | the weight is bold exactly when the draw exceeds 0.5 |
| `ClockTitle.PadShape` | test/App.tsx:41 | `pad` gives a single digit a leading "0", leaves longer numbers as they are, always yields at least two digits (exactly two below 100) and reads back as the number |
| `ClockTitle.MonthShownOneBased` | test/App.tsx:43 | `getMonth()` values 0..11 are shown as "01".."12" |
| `ClockTitle.TailRoundTrip` | test/App.tsx:43-48 | for a valid date everything after the year is 17 characters and reads back as month, day, hours, minutes and seconds |
| `ClockTitle.FormatTimeRoundTrip` | test/App.tsx:40-49 | `formatTime` is injective on valid dates: parsing the line gives back the date it was rendered from |
| `ClockTitle.Title.constructor` | test/App.tsx:13-15 | initial state "Montserrat", normal weight, the mount-time date, which as a JavaScript `Date` has valid parts (`Valid`) |
| `ClockTitle.Title.FontTick` | test/App.tsx:18-26 | the 100 ms tick sets the font from the first draw (always a listed font) and the weight from the second |
| `ClockTitle.Title.ClockTick` | test/App.tsx:33-35 | the one-second tick stores the new date and keeps `Valid` |
| `ClockTitle.Title.ClockText` | test/App.tsx:67 | the rendered line is `formatTime` of the stored date, and parsing it gives that date back |
| `Mailgen.NameLength` | kulam-mailgen/App.tsx:22 | the drawn length lies in 4..10 |
| `Mailgen.Attempt` | kulam-mailgen/App.tsx:21-23 | one attempt consumes the length draw and one draw per character, and never reads past the stream |
| `Mailgen.FirstFreshIsFreshName` | kulam-mailgen/App.tsx:20-24 | the name the do-while loop accepts is not among the names handed out before, has 4 to 10 characters and uses only a-z and 0-9 |
| `Mailgen.AddressIsNotPlaceholder` | kulam-mailgen/App.tsx:27-32 | no generated address equals the placeholder, so the copy guard blocks only the placeholder |
| `Mailgen.MailGenApp.constructor` | kulam-mailgen/App.tsx:6-8 | the placeholder is shown, nothing is copied and no names are used |
| `Mailgen.MailGenApp.GenerateEmail` | kulam-mailgen/App.tsx:10-29 | the loop returns the first fresh name of the stream; that name is added to the used set, the address is name + "@kulam.my.id" and the copied mark is cleared |
| `Mailgen.MailGenApp.CopyToClipboard` | kulam-mailgen/App.tsx:31-40 | the address is written exactly when it is not the placeholder |
| `MailServer.LocalPartLength` | mail/server.js:25 | the drawn length lies in 2..8 |
| `MailServer.Generate` | mail/server.js:23-31 | the answer is the picked lower-case name followed by "@kulam.my.id", and the local part has 2 to 8 letters a-z |
| `MailServer.ListQuery` | mail/server.js:38-42 | the listing asks the "me" mailbox for `to:<address>` and at most ten messages |
| `MailServer.HeaderValue` | mail/server.js:54-56 | the value is that of the first header with exactly that name, or "" when none has it |
| `MailServer.CaseSensitiveMatch` | mail/server.js:54-56 | headers named "from", "SUBJECT" or "date" are not matched |
| `MailServer.SummarizeAll` | mail/server.js:46-60 | `Promise.all` succeeds exactly when every get succeeds with a header list, and then yields one summary per id, in order |
| `MailServer.Inbox` | mail/server.js:34-67 | a failed listing answers 500 "Error fetching emails"; a listing without messages answers []; otherwise one summary per message in order, or 500 if any get fails |
| `ImageDisplay.Render` | animegen/components/ImageDisplay.tsx:11-57 | spinner iff loading; error panel with the message iff not loading and the error is truthy; image iff neither and the URL is truthy; placeholder otherwise |
| `PromptForm.ShouldGenerate` | animegen/components/PromptForm.tsx:17 | the form generates exactly when not loading and the prompt has a non-whitespace character |
| `PromptForm.SubmitDisabledIffNoGenerate` | animegen/components/PromptForm.tsx:15-40 | the submit button is disabled exactly when submitting would not generate |
| `PromptForm.Form.constructor` | animegen/components/PromptForm.tsx:13 | the prompt starts as the initial prompt |
| `PromptForm.Form.OnChange` | animegen/components/PromptForm.tsx:32 | typing replaces the prompt |
| `PromptForm.Form.TextareaDisabled` | animegen/components/PromptForm.tsx:35 | the textarea is disabled exactly while loading |
| `PromptForm.Form.HandleSubmit` | animegen/components/PromptForm.tsx:15-20 | the default is always prevented; `onGenerate(prompt)` is called exactly when `ShouldGenerate` holds, which is exactly when the button is enabled |
| `AnimegenApp.JpegDataUrlRoundTrip` | animegen/App.tsx:19 | the built URL parses as a base64 data URL of type image/jpeg whose data is the service's string |
| `AnimegenApp.Settled` | animegen/App.tsx:17-25 | after the call settles, loading is off; a resolved call shows its JPEG data URL and no error; a rejection shows the Error's message, or the fixed text for a non-Error |
| `AnimegenApp.SettledView` | animegen/App.tsx:50-54 | the settled state displays the image, the error panel, or (for an Error with an empty message) the placeholder |
| `AnimegenApp.App.constructor` | animegen/App.tsx:7-9 | not loading, no error, no image |
| `AnimegenApp.App.Start` | animegen/App.tsx:14-16 | the call starts in the loading state with error and image cleared |
| `AnimegenApp.App.Settle` | animegen/App.tsx:17-25 | a resolution sets the image, a rejection sets the error, and loading is switched off either way |
| `AnimegenApp.App.HandleGenerate` | animegen/App.tsx:13-26 | a whole call ends in the `Settled` state of its outcome |
| `SmokeGl.Gl.CreateFramebuffer` | test/components/SmokeCanvas.tsx:435-439 | a fresh framebuffer is attached to the texture on the given unit, and that texture is cleared |
| `SmokeGl.Gl.DrawTo` | test/components/SmokeCanvas.tsx:501-504 | a draw into a framebuffer replaces the attached texture with the bound program's output and records what it sampled |
| `SmokeFrame.Flip` | test/components/SmokeCanvas.tsx:450-454 | an even number of swaps leaves a pair as it is, and an odd number exchanges first and second |
| `SmokeFrame.FlipTwice` | test/components/SmokeCanvas.tsx:450-454 | swaps compose by adding their counts, so swapping twice restores the pair |
| `SmokeFrame.SwapKeepsLayout` | test/components/SmokeCanvas.tsx:450-454 | a swap keeps each double buffer on its own two units |
| `SmokeFrame.Settled` | test/components/SmokeCanvas.tsx:303-308 | the pointer loop clears `moved` on every pointer and changes nothing else |
| `SmokeFrame.PointerLoopStep` | test/components/SmokeCanvas.tsx:303-308 | the loop over one more pointer adds one splat exactly when that pointer moved |
| `SmokeFrame.SplatsStep` | test/components/SmokeCanvas.tsx:359-379 | one more splat swaps velocity and then density, and appends one splat's draws to the trace |
| `SmokeFrame.NoMoveNoSplat` | test/components/SmokeCanvas.tsx:303-308 | with no moved pointer the splat stage leaves every texture unchanged |
| `SmokeFrame.DensityAdvectedByStartVelocity` | test/components/SmokeCanvas.tsx:289-301 | density is advected by the frame's starting velocity, which is not the freshly advected one |
| `SmokeFrame.JacobiAgainstOneDivergence` | test/components/SmokeCanvas.tsx:335-342 | every Jacobi step relaxes the previous step's pressure against the same divergence, and nothing but pressure changes |
| `SmokeFrame.FrameByStages` | test/components/SmokeCanvas.tsx:274-357 | the staged traces (transport, forces, projection, display) make up the frame's trace |
| `SmokeFrame.SplatsTraceSwaps` | test/components/SmokeCanvas.tsx:303-308 | k splats swap velocity k times, density k times and pressure never |
| `SmokeFrame.JacobisTraceSwaps` | test/components/SmokeCanvas.tsx:338-342 | n Jacobi steps swap pressure n times and nothing else |
| `SmokeFrame.FrameSwaps` | test/components/SmokeCanvas.tsx:274-357 | one frame with k moved pointers swaps pressure 26 times, velocity 3 + k times and density 1 + k times |
| `SmokeFrame.SplatsTraceSafe` | test/components/SmokeCanvas.tsx:359-379 | no splat samples the texture it draws into |
| `SmokeFrame.JacobisTraceSafe` | test/components/SmokeCanvas.tsx:335-342 | no Jacobi step samples the texture it draws into |
| `SmokeFrame.FrameHasNoAliasing` | test/components/SmokeCanvas.tsx:274-357 | in a whole frame no draw samples its own destination texture |
| `SmokeCanvas.DownsampleHalves` | test/components/SmokeCanvas.tsx:459-460 | `size >> 1` is the floor of half the size |
| `SmokeCanvas.ClampedDt` | test/components/SmokeCanvas.tsx:284 | dt is the elapsed time in seconds, or 0.016 when that is larger, and never above either |
| `SmokeCanvas.ColorCountCycles` | test/components/SmokeCanvas.tsx:514-519 | after n mouse moves the counter is n mod 26 |
| `SmokeCanvas.ColorReplacedEvery26th` | test/components/SmokeCanvas.tsx:515-519 | move n re-draws the colour exactly when n is a multiple of 26 |
| `SmokeCanvas.CreateFbo` | test/components/SmokeCanvas.tsx:425-442 | creates a cleared texture on its unit with the requested size and filter, attached to a fresh framebuffer |
| `SmokeCanvas.CreateDoubleFbo` | test/components/SmokeCanvas.tsx:444-456 | creates two distinct framebuffers on units u and u + 1 with the same size and filter |
| `SmokeCanvas.SwapKeepsInstalled` | test/components/SmokeCanvas.tsx:450-454 | swapping a pair keeps every texture attached and sized as installed |
| `SmokeCanvas.InitFramebuffers` | test/components/SmokeCanvas.tsx:458-473 | density on units 0/1, velocity on 2/3, divergence on 4, curl on 5, pressure on 6/7, all of the halved size and cleared; density and velocity filter LINEAR when supported, the rest NEAREST |
| `SmokeCanvas.OpenContext` | test/components/SmokeCanvas.tsx:475-507 | the mount sequence resizes the canvas to its client size and leaves the same layout installed; when the canvas size differs from its client size the framebuffers are created twice (16 handles), otherwise once (8) |
| `SmokeCanvas.BindVelocityAdvection` | test/components/SmokeCanvas.tsx:289-294 | the advection program samples velocity for both inputs with the velocity dissipation |
| `SmokeCanvas.RetargetAdvection` | test/components/SmokeCanvas.tsx:298-299 | the source becomes the density texture and the dissipation the density one, while texel size, dt and uVelocity stay |
| `SmokeCanvas.BindSplat` | test/components/SmokeCanvas.tsx:366-371 | the splat program targets velocity with the aspect ratio, point, (dx, -dy, 1) colour and radius |
| `SmokeCanvas.RetargetSplat` | test/components/SmokeCanvas.tsx:375-376 | the target becomes density and the colour the scaled pointer colour, while the other uniforms stay |
| `SmokeCanvas.BindCurl` | test/components/SmokeCanvas.tsx:310-312 | the curl program samples velocity |
| `SmokeCanvas.BindVorticity` | test/components/SmokeCanvas.tsx:315-320 | the vorticity program samples velocity and curl with CURL = 35 and dt |
| `SmokeCanvas.BindDivergence` | test/components/SmokeCanvas.tsx:324-326 | the divergence program samples velocity |
| `SmokeCanvas.BindClear` | test/components/SmokeCanvas.tsx:329-331 | the clear program samples pressure with value 0.8 |
| `SmokeCanvas.BindPressure` | test/components/SmokeCanvas.tsx:335-337 | the pressure program gets the texel size and the divergence unit |
| `SmokeCanvas.SetPressureSource` | test/components/SmokeCanvas.tsx:339 | each iteration points uPressure at the current pressure and keeps the other uniforms |
| `SmokeCanvas.BindGradient` | test/components/SmokeCanvas.tsx:344-347 | the gradient program samples pressure and velocity |
| `SmokeCanvas.BindDisplay` | test/components/SmokeCanvas.tsx:352-353 | the display program samples density |
| `SmokeCanvas.Canvas.constructor` | test/components/SmokeCanvas.tsx:221-512 | after mount: the layout is installed and cleared, one idle pointer, lastTime is now, colorCount is 0, and the colour is three draws + 0.2 |
| `SmokeCanvas.Canvas.Blit` | test/components/SmokeCanvas.tsx:501-504 | draws the bound program into the texture attached to the framebuffer and records the draw |
| `SmokeCanvas.Canvas.SwapBuffer` | test/components/SmokeCanvas.tsx:450-454 | exchanges the roles of one pair, keeps the invariant and records the swap |
| `SmokeCanvas.Canvas.RenderInto` | test/components/SmokeCanvas.tsx:295-296 | draws into a pair's second texture, then swaps, so the output becomes the current value |
| `SmokeCanvas.Canvas.RenderOnto` | test/components/SmokeCanvas.tsx:313 | draws into the divergence or curl texture |
| `SmokeCanvas.Canvas.AdvectVelocity` | test/components/SmokeCanvas.tsx:289-296 | velocity becomes the velocity advected by itself with dissipation 0.99 |
| `SmokeCanvas.Canvas.AdvectDensity` | test/components/SmokeCanvas.tsx:298-301 | density becomes the density advected by the previous velocity with dissipation 0.98 |
| `SmokeCanvas.Canvas.AdvectionPass` | test/components/SmokeCanvas.tsx:289-301 | both advections: contents follow `AdvectionStep`, and velocity then density are swapped |
| `SmokeCanvas.Canvas.SplatVelocity` | test/components/SmokeCanvas.tsx:366-373 | velocity receives the (dx, -dy) splat at the normalised point |
| `SmokeCanvas.Canvas.SplatDensity` | test/components/SmokeCanvas.tsx:375-378 | density receives the colour splat scaled by 0.3 at the same point |
| `SmokeCanvas.Canvas.Splat` | test/components/SmokeCanvas.tsx:359-379 | one splat: contents follow `SplatStep`, and velocity then density are swapped |
| `SmokeCanvas.Canvas.VisitPointer` | test/components/SmokeCanvas.tsx:303-308 | one loop iteration keeps the loop invariant: splat if moved, then clear `moved` |
| `SmokeCanvas.Canvas.SplatPointers` | test/components/SmokeCanvas.tsx:303-308 | the pointer loop splats each moved pointer in order and clears every `moved` flag |
| `SmokeCanvas.Canvas.CurlPass` | test/components/SmokeCanvas.tsx:310-313 | the curl texture receives the curl of the current velocity |
| `SmokeCanvas.Canvas.VorticityPass` | test/components/SmokeCanvas.tsx:315-322 | velocity receives the confinement force and is swapped |
| `SmokeCanvas.Canvas.DivergencePass` | test/components/SmokeCanvas.tsx:324-327 | the divergence texture receives the divergence of the current velocity |
| `SmokeCanvas.Canvas.ClearPressure` | test/components/SmokeCanvas.tsx:329-333 | pressure is scaled by 0.8 and swapped |
| `SmokeCanvas.Canvas.Relax` | test/components/SmokeCanvas.tsx:339-341 | one Jacobi step of the current pressure against the divergence, then a swap |
| `SmokeCanvas.Canvas.SolvePressure` | test/components/SmokeCanvas.tsx:335-342 | the loop runs exactly 25 Jacobi steps: contents follow `JacobiSteps`, and pressure is swapped 25 times |
| `SmokeCanvas.Canvas.SubtractGradient` | test/components/SmokeCanvas.tsx:344-349 | velocity receives the pressure-gradient correction and is swapped |
| `SmokeCanvas.Canvas.Display` | test/components/SmokeCanvas.tsx:351-354 | the screen shows the current density, and no texture changes |
| `SmokeCanvas.Canvas.Transport` | test/components/SmokeCanvas.tsx:289-308 | advection, then the pointer loop |
| `SmokeCanvas.Canvas.Forces` | test/components/SmokeCanvas.tsx:310-327 | curl, vorticity and divergence, with one velocity swap |
| `SmokeCanvas.Canvas.Project` | test/components/SmokeCanvas.tsx:329-349 | the clear, 25 Jacobi steps and the gradient subtraction: pressure swapped 26 times, velocity once |
| `SmokeCanvas.Canvas.Solve` | test/components/SmokeCanvas.tsx:310-349 | forces, then projection |
| `SmokeCanvas.Canvas.Simulate` | test/components/SmokeCanvas.tsx:289-349 | all simulation passes: contents follow `Frame`, and the trace is the simulation part of `FrameTrace` |
| `SmokeCanvas.Canvas.Update` | test/components/SmokeCanvas.tsx:274-357 | one frame: lastTime advances, dt is clamped, the textures follow `Frame`, the screen shows the new density, pointers are settled, and the trace is `FrameTrace`, which `FrameSwaps` and `FrameHasNoAliasing` are about |
| `SmokeCanvas.Canvas.HandleMouseMove` | test/components/SmokeCanvas.tsx:514-527 | the counter advances modulo 26 and the colour is re-drawn when it wraps; pointer 0 is down and moved, takes the colour, dx/dy = 10 × the offset change, and the new position; other pointers are unchanged |
| `SmokeStencils.Clamp` | test/components/SmokeCanvas.tsx:431-432 | CLAMP_TO_EDGE maps every index into the texture: indices inside stay put, and indices before or after go to the first or last texel |
| `SmokeStencils.CentreSampling` | test/components/SmokeCanvas.tsx:40-44 | the neighbour coordinates vL, vR, vT and vB of a texel centre are the neighbouring texel centres; one is outside [0, 1] exactly when that neighbour is off the texture, and a sample there reads the clamped neighbour |
| `SmokeStencils.Divergence` | test/components/SmokeCanvas.tsx:103-125 | the divergence target has the velocity's shape and each texel holds the stencil at that texel |
| `SmokeStencils.Curl` | test/components/SmokeCanvas.tsx:127-144 | the curl target has the velocity's shape and each texel holds R - L - T + B at that texel |
| `SmokeStencils.Clear` | test/components/SmokeCanvas.tsx:49-58 | each texel is scaled by `value` |
| `SmokeStencils.Jacobi` | test/components/SmokeCanvas.tsx:173-193 | each texel holds (L + R + B + T - divergence) × 0.25 |
| `SmokeStencils.Iterated` | test/components/SmokeCanvas.tsx:338-342 | repeated Jacobi steps keep the pressure's shape |
| `SmokeStencils.SubtractGradient` | test/components/SmokeCanvas.tsx:195-214 | each texel's velocity loses half the pressure's central differences |
| `SmokeStencils.StillFluidHasNoDivergenceOrCurl` | test/components/SmokeCanvas.tsx:113-122 | an all-zero velocity has zero divergence and zero curl on every texel, the mirrored border included |
| `SmokeStencils.UniformFlowHasNoCurl` | test/components/SmokeCanvas.tsx:137-141 | a uniform velocity has zero curl everywhere |
| `SmokeStencils.UniformFlowDivergence` | test/components/SmokeCanvas.tsx:113-122 | a uniform flow (a, b) has zero divergence inside; the mirrored border makes the first and last texel of each axis a source or sink of ±a or ±b |
| `SmokeStencils.JacobiFixesUniform` | test/components/SmokeCanvas.tsx:184-190 | with zero divergence a uniform pressure, zero included, is a fixed point of the Jacobi step |
| `SmokeStencils.IteratedFixesUniform` | test/components/SmokeCanvas.tsx:338-342 | any number of such steps keeps it |
| `SmokeStencils.UniformPressureKeepsVelocity` | test/components/SmokeCanvas.tsx:206-212 | a uniform pressure leaves the velocity unchanged |
| `SmokeStencils.ClearTwice` | test/components/SmokeCanvas.tsx:56 | two clears scale by the product of their values |
| `SmokeStencils.StillFluidStaysStill` | test/components/SmokeCanvas.tsx:324-349 | a still fluid under uniform pressure stays still through divergence, clear, 25 Jacobi steps and gradient subtraction, and its pressure stays uniform, scaled by 0.8 |

## Left out

- WebGL itself is an abstract machine (`SmokeGl`). Context creation, extension and format detection, shader compilation and linking, vertex and index buffers, and viewports are not modelled. A texture is identified with the texture unit it was created on. `initFramebuffers` runs only at mount: once at line 507, and once before that through `resizeCanvas` (line 506) when the canvas size differs from its client size (lines 476-480). Each run binds new textures to units 0..7, and only the textures last created on a unit are sampled afterwards; a first set, when there is one, stays allocated but unused, so the unit names the live texture.
- Advection, splat, vorticity confinement and display stay symbolic. In `SmokeFrame` a texture's content is a term naming the program, the inputs and the uniform values that produced it. The exponential fall-off, the semi-Lagrangian back-trace and the normalisation are not evaluated. `SmokeStencils` evaluates only the projection shaders.
- `SmokeStencils` uses reals for the GPU's floating point. A grid keeps only the channels the shaders read. It assumes every pass draws one fragment per texel of a target the size of its sources, which holds for the off-screen passes because the viewport is the texture size.
- `SmokeStencils` does not prove that the Jacobi residual decreases.
- `SmokeStencils` does not link its grids to `SmokeFrame`'s symbolic terms by a proof.
- The drawing buffer is taken to be the canvas size, and device pixel ratios are not modelled.
- The `!gl` and `!canvas` early returns are left out: the model has a context.
- Scheduling is left out: `requestAnimationFrame`, React effects and hooks, the `mousemove` listener (line 529) and its removal (line 533). Each callback is a method call.
- The two `Date.now()` readings of a frame are parameters of `Update`. `Math.random()` values are parameters, or streams of draws in [0, 1); their distribution is not modelled.
- When the canvas size differs from its client size, the mount sequence creates the framebuffers twice (`resizeCanvas` at line 506, then line 507); otherwise only line 507 creates them. A first set stays allocated but unused. `OpenContext` counts the handles of both runs (16 against 8), and only the last set is installed.
- `colorArr` is shared by reference with `pointer.color`, but the handler replaces the array instead of mutating it, so the model copies the value.
- `SmokeCanvas.Canvas.Update` does not itself state "no aliasing" or the swap counts. It states that its trace is `FrameTrace`, and `SmokeFrame.FrameHasNoAliasing` and `SmokeFrame.FrameSwaps` prove both facts about `FrameTrace`.
- `Mailgen.MailGenApp.GenerateEmail` requires that the draw stream eventually yields a fresh name. The source loops forever otherwise.
- The clipboard write and the two-second reset of the copied mark are left out (browser API and timer).
- In `mail/server.js`, Express routing, CORS, body parsing, OAuth credentials, logging and `app.listen` are left out. The Gmail calls are inputs.
- `animegen/services/geminiService.ts` is not part of this model. Its outcome (resolved data or a thrown value) is an input of `HandleGenerate`.
- Markup, styles, icons and `console.error` are left out.
- `AnimegenApp.App.HandleGenerate` runs one call from start to settlement; overlapping calls of the async handler (a second submit during the `await`) are not modelled. The form's `!isLoading` guard (`animegen/components/PromptForm.tsx` line 17, `PromptForm.ShouldGenerate`) is what keeps them from starting.
