# Scene parameters and rebuild rule of the hw00-intro-base demo

The demo draws one of three meshes (an icosphere, a square or a cube) with
one of three shader programs (Lambert, Perlin Rust or Wave Deform) in a base
colour chosen on a dat.GUI panel. Around the WebGL calls, `src/main.ts` keeps
a small state machine. It has:

- the panel's `controls` object: geometry name, tessellation level, colour
  array and shader name;
- the module-level meshes `icosphere`, `square` and `cube`;
- `prevTesselations`, the level the icosphere was last rebuilt for.

Three operations change this state:

- the `Load Scene` button rebuilds all three meshes at the origin;
- the colour picker's change handler rounds and clamps each channel in place;
- each frame (`tick`) computes the colour uniform and rebuilds the icosphere
  when its level changed while it is selected. It then picks the shader and
  the mesh by name, sets the time uniform for the Wave Deform program and
  draws.

This project models that state machine in Dafny and proves its properties.

- `controls.dfy` (module `Controls`): the panel's settings as a value. It also
  holds the two dispatchers from a selection string to a geometry and a
  shader, `Math.round` and the `[0, 255]` clamp, and the colour uniform.
- `scene.dfy` (module `SceneModel`): the whole state as a value (`World`), and
  one function per operation that says what it does to the state. Class
  `Scene` holds the same state in fields, with the colour as a three-element
  `array<int>`. Its methods `Tick`, `LoadScene` and `OnColorChange` are proved
  to follow those functions. A ghost counter records the icospheres the frame
  loop builds.
- `properties.dfy` (module `SceneProperties`): runs made of any interleaving of
  panel writes, colour picks, button presses and frames. It proves the
  rebuild rule, the deferred rebuild, the bound on rebuilds, the colour range
  and the stale-icosphere finding below.

Meshes are records of what they were built from: the centre, the radius and
the level for the icosphere, and the centre for the square and the cube. The
elapsed time is a parameter of a frame. A frame returns what it would draw:
the program, the mesh, the colour uniform, and the time uniform when it is
set.

Two behaviours of the code worth stating:

- A level write made while another geometry is selected is kept. It takes
  effect in the first frame after the icosphere is selected again
  (`InactiveIcosphereUntouched`, `DeferredRebuildOnReselect`). The panel
  hides the slider while another geometry is selected (src/main.ts:71-85), so
  such a write is a programmatic one, not one a user makes on the panel.
- The frame loop does not clamp the level into [0, 8]. Only the slider
  restricts it, so the model takes any integer.

## Model

| member | source | states |
|---|---|---|
| `Controls.SelectGeometry` | src/main.ts:39-50 | "Icosphere" selects the icosphere and "Square" the square, each if and only if the name is exactly that; "Cube" and every other string select the cube |
| `Controls.GeometryOption` | src/main.ts:65 | every option of the geometry dropdown dispatches to the mesh it names |
| `Controls.SelectShader` | src/main.ts:137-148 | "Lambert" and "Wave Deform" select their program if and only if the name is exactly that; "Perlin Rust" and every other string select the Perlin program |
| `Controls.ShaderOption` | src/main.ts:88 | every option of the shader dropdown dispatches to the program it names |
| `Controls.JsRound` | src/main.ts:94-96 | `Math.round` gives the integer n with n - 0.5 <= x < n + 0.5 (halves round up) |
| `Controls.Clamp255` | src/main.ts:94-96 | `Math.max(0, Math.min(255, v))` lies in [0, 255], keeps values already there, maps values below to 0 and values above to 255 |
| `Controls.PickedChannel` | src/main.ts:94-96 | a picked channel is stored in [0, 255]: 0 below 0.5, 255 from 254.5 on, and the nearest integer in between |
| `Controls.PickedChannelKeepsInRange` | src/main.ts:92-97 | a whole number already in [0, 255] is stored unchanged |
| `Controls.UnitChannel` | src/main.ts:160-162 | one uniform channel lies in [0, 1], equals the channel over 255 when the channel is in range, and is 0 or 1 beyond the ends |
| `Controls.UniformColor` | src/main.ts:159-164 | the colour uniform has each RGB component in [0, 1] and alpha exactly 1, and is the stored colour over 255 when that colour is in range |
| `SceneModel.UnitIcosphere` | src/main.ts:170 | the rebuilt icosphere is a unit sphere at the origin at the given level |
| `SceneModel.LoadSceneSpec` | src/main.ts:29-36 | `loadScene` puts every mesh at the origin and the icosphere at the panel's level with radius 1; it changes neither the settings nor `prevTesselations` |
| `SceneModel.Start` | src/main.ts:14-25 | the state after start-up has the initial settings (Cube, level 5, colour 255/0/0, Perlin Rust), `prevTesselations` 5, and every mesh at the origin with the icosphere at level 5 |
| `SceneModel.CurrentGeometry` | src/main.ts:39-50 | `getCurrentGeometry` returns the icosphere for "Icosphere", the square for "Square" and the cube for any other name |
| `SceneModel.TickSpec` | src/main.ts:159-188 | a frame leaves the settings, the square and the cube alone; it draws the selected program and mesh, the latter as it is after the rebuild decision, with the clamped colour uniform |
| `SceneModel.ColorChangeSpec` | src/main.ts:92-97 | the handler sets each channel from its own picked value, leaves the colour in range, and changes nothing else |
| `SceneModel.Scene.constructor` | src/main.ts:14-25 | the fields start in the state `Start` describes, with a fresh colour array and no rebuild counted |
| `SceneModel.Scene.LoadScene` | src/main.ts:29-36 | the button changes the fields as `LoadSceneSpec` says and keeps the same colour array |
| `SceneModel.Scene.OnColorChange` | src/main.ts:92-97 | the handler overwrites the three elements of the colour array in place with the picked, rounded and clamped values |
| `SceneModel.Scene.Tick` | src/main.ts:151-188 | a frame changes the fields and returns the frame exactly as `TickSpec` says, and counts one rebuild when `TickSpec` rebuilds |
| `SceneProperties.TickRebuildRule` | src/main.ts:166-172 | a frame rebuilds if and only if the level differs from `prevTesselations` and "Icosphere" is selected; a rebuild sets `prevTesselations` to the level and builds the icosphere at that level; otherwise the state is unchanged |
| `SceneProperties.SecondTickNeverRebuilds` | src/main.ts:166-172 | of two frames with no panel change between them, the second never rebuilds and changes nothing |
| `SceneProperties.TimeUniformOnlyForWave` | src/main.ts:182-184 | the time uniform is set in a frame if and only if that frame draws with the Wave Deform program, and then to the elapsed time |
| `SceneProperties.TickDrawsSelection` | src/main.ts:174-188 | the frame draws the icosphere (after this frame's rebuild) for "Icosphere", the square for "Square" and the cube otherwise, and always a mesh at the origin |
| `SceneProperties.TickColorIsExact` | src/main.ts:159-164 | with the stored colour in range, the uniform is exactly each channel over 255 with alpha 1 |
| `SceneProperties.ColorStaysInRange` | src/main.ts:92-97 | along any run the stored colour stays in [0, 255], and every frame's colour uniform is in [0, 1] with alpha 1 |
| `SceneProperties.OriginKept` | src/main.ts:29-36 | along any run from a state with every mesh at the origin, every mesh stays there and every frame draws a mesh at the origin |
| `SceneProperties.RebuildsBoundedByLevelWrites` | src/main.ts:166-172 | over any run, the rebuilds plus the change still pending at the end are at most the change pending at the start plus the number of level writes |
| `SceneProperties.AtMostOneRebuildWithoutLevelWrites` | src/main.ts:166-172 | any run without a level change, however many frames it has, rebuilds at most once, and never when the level already equals `prevTesselations` |
| `SceneProperties.InactiveIcosphereUntouched` | src/main.ts:166-172 | while another geometry is selected, frames and level changes leave the icosphere and `prevTesselations` alone and rebuild nothing |
| `SceneProperties.DeferredRebuildOnReselect` | src/main.ts:166-176 | a level change made while another geometry is shown rebuilds nothing in the next frame; after the icosphere is reselected, the next frame rebuilds once at the new level and draws it |
| `SceneProperties.SwitchAwayAndBackNoRebuild` | src/main.ts:166-172 | switching to another geometry and back with the level unchanged rebuilds nothing |
| `SceneProperties.StaleIcosphereAfterLoadScene` | src/main.ts:29-36 | as written, a run from start-up ends drawing the icosphere at level 3 while "Icosphere" is selected and the panel's level is 5 |
| `SceneProperties.LoadSceneSynced` | src/main.ts:29-36 | the corrected button builds exactly the state `LoadSceneSpec` builds, except that `prevTesselations` becomes the panel's level, so the icosphere is built for `prevTesselations` |
| `SceneProperties.PanelRunsStayAtPanelLevel` | src/main.ts:71-85 | as written, runs with a frame after every panel event and level writes only while the slider is shown keep the icosphere built for `prevTesselations`, which equals the panel's level |
| `SceneProperties.SyncedRunStaysSynchronised` | src/main.ts:166-172 | with the corrected button, every run keeps the icosphere built for `prevTesselations` |
| `SceneProperties.SyncedTickDrawsPanelLevel` | src/main.ts:166-176 | with the corrected button, after any run from start-up, a frame with "Icosphere" selected draws the icosphere at the panel's level |

## Findings

| source | as written | input that shows it | evidently intended | confidence | as-written member | corrected member |
|---|---|---|---|---|---|---|
| src/main.ts:29-36 | `loadScene` rebuilds the icosphere at the panel's level but leaves `prevTesselations` as it was. The frame loop then compares the level with a value the icosphere no longer matches. | from start-up (Cube, level 5): the events level := 3, `Load Scene`, level := 5, geometry := Icosphere, one frame. The frame shows a level-3 icosphere while the level is 5, and no later frame rebuilds it while the level stays 5. The panel hides the slider while the cube is selected, so the first level write must be programmatic. Alternatively, with the icosphere selected, the three panel events must all happen within one frame. With a frame after every panel event the panel alone cannot reach this state (`SceneProperties.PanelRunsStayAtPanelLevel`). | a frame that draws the icosphere draws it at the panel's level | low: a latent hazard the panel's hidden slider masks; not executed | `SceneProperties.StaleIcosphereAfterLoadScene` | `SceneProperties.LoadSceneSynced`, with `SceneProperties.SyncedTickDrawsPanelLevel` |

Class `Scene` and `SceneModel.LoadSceneSpec` keep `loadScene` as the code
has it, because the model describes the demo as written. The run-level
lemmas take the button's rule as a parameter (`LoadRule`). The colour, the
rebuild bound and the deferred rebuild are proved under both rules. The
"drawn level equals panel level" property is proved for every run under
the corrected rule. Under the as-written rule it is proved only for runs
the panel produces with a frame after every event.

## Left out

- The dat.GUI panel, the stats overlay and the DOM: building the controllers
  and toggling the slider's display style (src/main.ts:54-99). The panel's
  writes to `controls` are modelled as plain field updates (the events
  `ChooseGeometry`, `SetTesselations`, `ChooseShader`). The hidden slider
  appears only as the condition `SliderShown` on the runs of
  `PanelRunsStayAtPanelLevel`.
- WebGL: acquiring the context, the `alert`, `setGL`, depth-test enabling, the
  viewport and compiling the GLSL programs (src/main.ts:102-134). The three
  programs are the cases of `ShaderKind`.
- Rendering and the camera: `renderer.render`, `renderer.clear`, the camera's
  update and projection, and the resize handler. A frame returns what it
  would draw instead of drawing it.
- Timing: `Date.now()` and `requestAnimationFrame`. The elapsed time is a
  parameter of `Tick`. The frame loop is modelled as a sequence of `RunFrame`
  events in a run.
- The mesh classes `Icosphere`, `Square` and `Cube`, and their vertex and
  index buffers. They are not part of this model; a mesh is the record of
  what it was built from.
- The time uniform persists in a shader program across frames. The model
  records only whether the current frame set it, and to what.
- `Controls.JsRound`: models `Math.round` on finite numbers only. It ignores
  NaN, the infinities and negative zero, because reals have none of them.
- `SceneModel.Scene.OnColorChange`: takes the picker's value as a sequence of
  at least three reals, which is what dat.GUI passes. It does not model the
  value array aliasing `controls.u_Color`. That aliasing cannot change the
  result, because channel i reads only element i before writing element i.
- Controls.UnitChannel: models the division by 255 in exact reals. The source
  divides JavaScript doubles and `vec4.fromValues` stores 32-bit floats, so
  `u * 255.0 == v` is not exact in the program (take v = 1). The bounds
  [0, 1] survive that rounding.
- Controls.UniformColor: the same exact division. The source's double and
  32-bit float rounding is not captured. The [0, 1] bounds and alpha exactly
  1 hold in the program too.
- SceneProperties.TickColorIsExact: "each channel over 255" is the exact
  real quotient. The program's uniform is its 32-bit float rounding.
- The level and the colour channels are unbounded integers. JavaScript's
  doubles are exact on every value the slider and the handler produce.
