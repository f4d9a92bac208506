/** The scene's state machine: the module-level globals of the demo (the
    three meshes and the last tessellation level the icosphere was rebuilt
    for), the panel's settings, and the three operations that change them:
    the per-frame tick, the `Load Scene` button and the colour picker's
    change handler.

    `World` is the whole state as a value and the functions below say what
    each operation does to it; class `Scene` holds the same state in fields
    and its methods are proved to follow those functions. */
module SceneModel {
  import opened Controls

  datatype Option<T> = None | Some(value: T)

  datatype Point3 = Point3(x: real, y: real, z: real)

  const Origin := Point3(0.0, 0.0, 0.0)

  /** A mesh is known by what it was built from; the mesh classes
      themselves (vertex and index buffers) are not part of this model. */
  datatype Mesh =
    | IcosphereMesh(center: Point3, radius: real, level: int)
    | SquareMesh(center: Point3)
    | CubeMesh(center: Point3)
  {
    function Center(): Point3 {
      match this
      case IcosphereMesh(c, _, _) => c
      case SquareMesh(c) => c
      case CubeMesh(c) => c
    }
  }

  /** The icosphere `new Icosphere(vec3.fromValues(0, 0, 0), 1, level)` builds. */
  function UnitIcosphere(level: int): (m: Mesh)
    ensures m.IcosphereMesh? && m.Center() == Origin && m.radius == 1.0 && m.level == level
  {
    IcosphereMesh(Origin, 1.0, level)
  }

  datatype World = World(
    controls: Settings,
    icosphere: Mesh,
    square: Mesh,
    cube: Mesh,
    prevTesselations: int)

  /** What one frame draws: the program, the single mesh, the colour
      uniform, and the time uniform if it was set in this frame. */
  datatype Frame = Frame(shader: ShaderKind, mesh: Mesh, color: Vec4, time: Option<real>)

  /** The outcome of one tick: the new state, the frame drawn, and whether a
      new icosphere was built. */
  datatype TickResult = TickResult(world: World, frame: Frame, rebuilt: bool)

  /** `prevTesselations` starts equal to the panel's initial level (src/main.ts:25). */
  const InitialPrevTesselations := 5

  predicate AllAtOrigin(w: World) {
    w.icosphere.Center() == Origin && w.square.Center() == Origin && w.cube.Center() == Origin
  }

  /** The `Load Scene` callback: builds all three meshes anew at the origin,
      the icosphere at the panel's current level; the settings and
      `prevTesselations` are left as they are. */
  function LoadSceneSpec(w: World): (r: World)
    ensures AllAtOrigin(r)
    ensures r.icosphere.IcosphereMesh? && r.icosphere.radius == 1.0
    ensures r.icosphere.level == w.controls.tesselations
    ensures r.square.SquareMesh? && r.cube.CubeMesh?
    ensures r.controls == w.controls && r.prevTesselations == w.prevTesselations
  {
    w.(icosphere := UnitIcosphere(w.controls.tesselations),
       square := SquareMesh(Origin),
       cube := CubeMesh(Origin))
  }

  /** The state after start-up: the initial settings, and the meshes built by
      the first `loadScene()` call that `main` makes before the first frame. */
  function Start(): (w: World)
    ensures w.controls == InitialSettings && w.prevTesselations == InitialPrevTesselations
    ensures AllAtOrigin(w) && w.icosphere == UnitIcosphere(w.prevTesselations)
  {
    LoadSceneSpec(World(InitialSettings, UnitIcosphere(5), SquareMesh(Origin), CubeMesh(Origin),
                        InitialPrevTesselations))
  }

  /** getCurrentGeometry: the mesh the geometry selection stands for. */
  function CurrentGeometry(w: World): (m: Mesh)
    ensures w.controls.geometry == "Icosphere" ==> m == w.icosphere
    ensures w.controls.geometry == "Square" ==> m == w.square
    ensures w.controls.geometry != "Icosphere" && w.controls.geometry != "Square" ==> m == w.cube
  {
    PickMesh(SelectGeometry(w.controls.geometry), w.icosphere, w.square, w.cube)
  }

  function PickMesh(k: GeometryKind, icosphere: Mesh, square: Mesh, cube: Mesh): Mesh {
    match k
    case Icosphere => icosphere
    case Square => square
    case Cube => cube
  }

  /** The rebuild rule of the frame loop: the level differs from the one last
      built for, and the icosphere is the selected geometry. */
  predicate RebuildDue(s: Settings, prevTesselations: int) {
    s.tesselations != prevTesselations && s.geometry == "Icosphere"
  }

  /** One frame (`tick`), with the elapsed time in seconds as a parameter. */
  function TickSpec(w: World, elapsed: real): (t: TickResult)
    ensures t.world.controls == w.controls
    ensures t.world.square == w.square && t.world.cube == w.cube
    ensures t.frame.shader == SelectShader(w.controls.shader)
    ensures t.frame.mesh == CurrentGeometry(t.world)
    ensures t.frame.color == UniformColor(w.controls.color)
  {
    var s := w.controls;
    var rebuilt := RebuildDue(s, w.prevTesselations);
    var w' := if rebuilt
              then w.(prevTesselations := s.tesselations, icosphere := UnitIcosphere(s.tesselations))
              else w;
    var time := if s.shader == "Wave Deform" then Some(elapsed) else None;
    TickResult(w', Frame(SelectShader(s.shader), CurrentGeometry(w'), UniformColor(s.color), time), rebuilt)
  }

  /** The colour picker's change handler: each channel of the stored colour
      becomes its own picked value, rounded and clamped; nothing else changes. */
  function ColorChangeSpec(w: World, value: seq<real>): (r: World)
    requires |value| >= 3
    ensures InRange(r.controls.color)
    ensures r.controls.color == Rgb(PickedChannel(value[0]), PickedChannel(value[1]), PickedChannel(value[2]))
    ensures r.(controls := w.controls) == w
    ensures r.controls.(color := w.controls.color) == w.controls
  {
    w.(controls := w.controls.(color := Rgb(PickedChannel(value[0]), PickedChannel(value[1]), PickedChannel(value[2]))))
  }

  /** The demo's global state held in place: the panel's `controls` object
      (its colour is the shared three-element array the picker overwrites)
      and the module-level `icosphere`, `square`, `cube` and
      `prevTesselations`. `rebuilds` counts the icosphere objects built by
      the frame loop. */
  class Scene {
    var geometry: string
    var tesselations: int
    var color: array<int>
    var shader: string
    var icosphere: Mesh
    var square: Mesh
    var cube: Mesh
    var prevTesselations: int
    ghost var rebuilds: nat

    ghost predicate Valid()
      reads this
    {
      color.Length == 3
    }

    /** The state these fields hold. */
    function State(): World
      reads this, color
      requires Valid()
    {
      World(Settings(geometry, tesselations, Rgb(color[0], color[1], color[2]), shader),
            icosphere, square, cube, prevTesselations)
    }

    /** Module initialisation followed by the first `loadScene()` in `main`. */
    constructor ()
      ensures Valid() && fresh(color)
      ensures State() == Start()
      ensures rebuilds == 0
    {
      geometry := "Cube";
      tesselations := 5;
      var c := new int[3];
      c[0], c[1], c[2] := 255, 0, 0;
      color := c;
      shader := "Perlin Rust";
      prevTesselations := 5;
      rebuilds := 0;
      new;
      LoadScene();
    }

    /** The `Load Scene` button. */
    method LoadScene()
      requires Valid()
      modifies this
      ensures Valid() && color == old(color)
      ensures State() == LoadSceneSpec(old(State()))
      ensures rebuilds == old(rebuilds)
    {
      icosphere := IcosphereMesh(Origin, 1.0, tesselations);
      square := SquareMesh(Origin);
      cube := CubeMesh(Origin);
    }

    /** The colour picker's change handler; it writes the three elements of
      the shared colour array in place. */
    method OnColorChange(value: seq<real>)
      requires Valid() && |value| >= 3
      modifies color
      ensures Valid()
      ensures color[..] == [PickedChannel(value[0]), PickedChannel(value[1]), PickedChannel(value[2])]
      ensures State() == ColorChangeSpec(old(State()), value)
    {
      color[0] := Clamp255(JsRound(value[0]));
      color[1] := Clamp255(JsRound(value[1]));
      color[2] := Clamp255(JsRound(value[2]));
    }

    /** One frame of the render loop; returns what is drawn. */
    method Tick(elapsed: real) returns (frame: Frame)
      requires Valid()
      modifies this
      ensures Valid() && color == old(color)
      ensures State() == TickSpec(old(State()), elapsed).world
      ensures frame == TickSpec(old(State()), elapsed).frame
      ensures rebuilds == old(rebuilds) + (if TickSpec(old(State()), elapsed).rebuilt then 1 else 0)
    {
      var c := UniformColor(Rgb(color[0], color[1], color[2]));
      if tesselations != prevTesselations && geometry == "Icosphere" {
        prevTesselations := tesselations;
        icosphere := IcosphereMesh(Origin, 1.0, prevTesselations);
        rebuilds := rebuilds + 1;
      }
      var program := SelectShader(shader);
      var mesh := PickMesh(SelectGeometry(geometry), icosphere, square, cube);
      var time := None;
      if shader == "Wave Deform" {
        time := Some(elapsed);
      }
      frame := Frame(program, mesh, c, time);
    }
  }
}
