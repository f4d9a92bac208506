/** The control panel's parameter set and the pure decisions made from it:
    which geometry and which shader program a selection string stands for,
    how a picked colour channel is rounded and clamped, and how the stored
    colour becomes the 4-component colour uniform. */
module Controls {

  /** The three meshes the scene keeps (src/main.ts:22-24). */
  datatype GeometryKind = Icosphere | Square | Cube

  /** The three shader programs built at start-up (src/main.ts:121-134). */
  datatype ShaderKind = Lambert | PerlinRust | WaveDeform

  /** An RGB colour with one JavaScript number per channel; the panel stores
      whole numbers in it. */
  datatype Rgb = Rgb(r: int, g: int, b: int)

  /** The mutable `controls` object the panel writes into. The selections are
      kept as the strings the panel stores; `Load Scene` is the button's
      callback and is modelled as an operation, not as data. */
  datatype Settings = Settings(geometry: string, tesselations: int, color: Rgb, shader: string)

  /** The values the panel starts with (src/main.ts:14-20). */
  const InitialSettings := Settings("Cube", 5, Rgb(255, 0, 0), "Perlin Rust")

  /** getCurrentGeometry's switch: "Icosphere" and "Square" select their own
      mesh, "Cube" and every other string select the cube. */
  function SelectGeometry(name: string): (k: GeometryKind)
    ensures k == Icosphere <==> name == "Icosphere"
    ensures k == Square <==> name == "Square"
    ensures k == Cube <==> name != "Icosphere" && name != "Square"
  {
    if name == "Icosphere" then Icosphere
    else if name == "Square" then Square
    else if name == "Cube" then Cube
    else Cube
  }

  /** The option the geometry dropdown offers for each mesh; every option
      dispatches back to the mesh it names. */
  function GeometryOption(k: GeometryKind): (name: string)
    ensures SelectGeometry(name) == k
  {
    match k
    case Icosphere => "Icosphere"
    case Cube => "Cube"
    case Square => "Square"
  }

  /** getCurrentShader's switch: "Lambert", "Perlin Rust" and "Wave Deform"
      select their own program, every other string the Perlin program. */
  function SelectShader(name: string): (k: ShaderKind)
    ensures k == Lambert <==> name == "Lambert"
    ensures k == WaveDeform <==> name == "Wave Deform"
    ensures k == PerlinRust <==> name != "Lambert" && name != "Wave Deform"
  {
    if name == "Lambert" then Lambert
    else if name == "Perlin Rust" then PerlinRust
    else if name == "Wave Deform" then WaveDeform
    else PerlinRust
  }

  /** The option the shader dropdown offers for each program. */
  function ShaderOption(k: ShaderKind): (name: string)
    ensures SelectShader(name) == k
  {
    match k
    case Lambert => "Lambert"
    case PerlinRust => "Perlin Rust"
    case WaveDeform => "Wave Deform"
  }

  /** JavaScript's Math.round on a finite number: the nearest integer, with
      halves rounded up. */
  function JsRound(x: real): (n: int)
    ensures n as real - 0.5 <= x < n as real + 0.5
  {
    (x + 0.5).Floor
  }

  /** Math.max(0, Math.min(255, v)). */
  function Clamp255(v: int): (c: int)
    ensures 0 <= c <= 255
    ensures 0 <= v <= 255 ==> c == v
    ensures v < 0 ==> c == 0
    ensures v > 255 ==> c == 255
  {
    var low := if v < 255 then v else 255;
    if 0 > low then 0 else low
  }

  /** What the colour picker's change handler stores for one channel:
      the rounded value, clamped into [0, 255]. */
  function PickedChannel(v: real): (c: int)
    ensures 0 <= c <= 255
    ensures v < 0.5 ==> c == 0
    ensures v >= 254.5 ==> c == 255
    ensures 0.5 <= v < 254.5 ==> c as real - 0.5 <= v < c as real + 0.5
  {
    Clamp255(JsRound(v))
  }

  predicate InRange(c: Rgb) {
    0 <= c.r <= 255 && 0 <= c.g <= 255 && 0 <= c.b <= 255
  }

  /** A colour as the shaders receive it: four reals. */
  datatype Vec4 = Vec4(x: real, y: real, z: real, w: real)

  /** One channel of the colour uniform: clamped into [0, 255], then
      divided by 255. */
  function UnitChannel(v: int): (u: real)
    ensures 0.0 <= u <= 1.0
    ensures 0 <= v <= 255 ==> u * 255.0 == v as real
    ensures v <= 0 ==> u == 0.0
    ensures v >= 255 ==> u == 1.0
  {
    Clamp255(v) as real / 255.0
  }

  /** The colour uniform computed at the start of every frame: each RGB
      component in [0, 1] and alpha exactly 1. */
  function UniformColor(c: Rgb): (v: Vec4)
    ensures 0.0 <= v.x <= 1.0 && 0.0 <= v.y <= 1.0 && 0.0 <= v.z <= 1.0
    ensures v.w == 1.0
    ensures InRange(c) ==> v.x * 255.0 == c.r as real && v.y * 255.0 == c.g as real && v.z * 255.0 == c.b as real
  {
    Vec4(UnitChannel(c.r), UnitChannel(c.g), UnitChannel(c.b), 1.0)
  }

  /** A whole number already in [0, 255] survives the picker's handler. */
  lemma PickedChannelKeepsInRange(n: int)
    requires 0 <= n <= 255
    ensures PickedChannel(n as real) == n
  {
  }
}
