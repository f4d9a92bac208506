/** Properties of the scene state machine over whole runs: the panel's
    writes, the button and the frame loop interleaved in any order. */
module SceneProperties {
  import opened Controls
  import opened SceneModel

  /** What can happen between two observations of the state: the panel
      writes a setting (dat.GUI assigns the `controls` field directly), the
      colour picker fires its handler, the button runs `loadScene`, or the
      host runs one frame. */
  datatype Event =
    | ChooseGeometry(name: string)
    | SetTesselations(level: int)
    | ChooseShader(name: string)
    | PickColor(r: real, g: real, b: real)
    | ClickLoadScene
    | RunFrame(elapsed: real)

  /** How the `Load Scene` button treats `prevTesselations`: as the demo has
      it (untouched), or brought in line with the icosphere it builds. */
  datatype LoadRule = AsWritten | Synced

  /** The corrected `Load Scene`: the same meshes, and `prevTesselations`
      set to the level the new icosphere was built for. */
  function LoadSceneSynced(w: World): (r: World)
    ensures AllAtOrigin(r) && r.controls == w.controls
    ensures r.icosphere == UnitIcosphere(r.prevTesselations)
    ensures r.prevTesselations == w.controls.tesselations
    ensures r.(prevTesselations := w.prevTesselations) == LoadSceneSpec(w)
  {
    LoadSceneSpec(w).(prevTesselations := w.controls.tesselations)
  }

  datatype StepResult = StepResult(world: World, frames: seq<Frame>, rebuilt: bool)

  function Step(w: World, e: Event, rule: LoadRule): StepResult {
    match e
    case ChooseGeometry(name) => StepResult(w.(controls := w.controls.(geometry := name)), [], false)
    case SetTesselations(level) => StepResult(w.(controls := w.controls.(tesselations := level)), [], false)
    case ChooseShader(name) => StepResult(w.(controls := w.controls.(shader := name)), [], false)
    case PickColor(r, g, b) => StepResult(ColorChangeSpec(w, [r, g, b]), [], false)
    case ClickLoadScene =>
      StepResult(if rule == AsWritten then LoadSceneSpec(w) else LoadSceneSynced(w), [], false)
    case RunFrame(elapsed) =>
      var t := TickSpec(w, elapsed);
      StepResult(t.world, [t.frame], t.rebuilt)
  }

  /** The state after a run, the frames it drew and how many icospheres the
      frame loop built. */
  datatype Trace = Trace(world: World, frames: seq<Frame>, rebuilds: nat)

  function Run(w: World, es: seq<Event>, rule: LoadRule): Trace
    decreases |es|
  {
    if es == [] then Trace(w, [], 0)
    else
      var s := Step(w, es[0], rule);
      var t := Run(s.world, es[1..], rule);
      Trace(t.world, s.frames + t.frames, (if s.rebuilt then 1 else 0) + t.rebuilds)
  }

  function CountLevelWrites(es: seq<Event>): nat
    decreases |es|
  {
    if es == [] then 0
    else (if es[0].SetTesselations? then 1 else 0) + CountLevelWrites(es[1..])
  }

  /** 1 when a level change is waiting for the next rebuild, 0 otherwise. */
  function Pending(w: World): nat {
    if w.controls.tesselations != w.prevTesselations then 1 else 0
  }

  // ---------------------------------------------------------------------
  // One frame

  /** The rebuild rule of `tick`: a new unit icosphere at the origin is built
      exactly when the level differs from `prevTesselations` and the
      icosphere is selected; it is built at the panel's level, which becomes
      `prevTesselations`. Otherwise the icosphere and `prevTesselations`
      stay as they were. */
  lemma TickRebuildRule(w: World, elapsed: real)
    ensures var t := TickSpec(w, elapsed);
      && (t.rebuilt <==> w.controls.tesselations != w.prevTesselations && w.controls.geometry == "Icosphere")
      && (t.rebuilt ==> t.world.prevTesselations == w.controls.tesselations
                        && t.world.icosphere == UnitIcosphere(w.controls.tesselations))
      && (!t.rebuilt ==> t.world == w)
  {
  }

  /** Two frames with no change to the panel in between build at most one
      icosphere, and the second frame never builds one. */
  lemma SecondTickNeverRebuilds(w: World, e1: real, e2: real)
    ensures !TickSpec(TickSpec(w, e1).world, e2).rebuilt
    ensures TickSpec(TickSpec(w, e1).world, e2).world == TickSpec(w, e1).world
  {
  }

  /** The time uniform is set exactly in the frames that draw with the Wave
      Deform program, and then to the elapsed time. */
  lemma TimeUniformOnlyForWave(w: World, elapsed: real)
    ensures var f := TickSpec(w, elapsed).frame;
      && (f.time.Some? <==> f.shader == WaveDeform)
      && (f.time.Some? ==> f.time.value == elapsed)
  {
  }

  /** The frame draws the mesh the geometry selection names (after any
      rebuild in the same frame), and with every mesh at the origin so is
      the one drawn. */
  lemma TickDrawsSelection(w: World, elapsed: real)
    requires AllAtOrigin(w)
    ensures var f := TickSpec(w, elapsed).frame;
      && f.mesh.Center() == Origin
      && (w.controls.geometry == "Icosphere" ==> f.mesh == TickSpec(w, elapsed).world.icosphere)
      && (SelectGeometry(w.controls.geometry) == Cube ==> f.mesh == w.cube)
      && (w.controls.geometry == "Square" ==> f.mesh == w.square)
  {
  }

  /** With the stored colour in range, the second clamp in `tick` changes
      nothing: the uniform is each channel divided by 255, alpha 1. */
  lemma TickColorIsExact(w: World, elapsed: real)
    requires InRange(w.controls.color)
    ensures var v := TickSpec(w, elapsed).frame.color;
      v == Vec4(w.controls.color.r as real / 255.0, w.controls.color.g as real / 255.0,
                w.controls.color.b as real / 255.0, 1.0)
  {
  }

  // ---------------------------------------------------------------------
  // Whole runs

  /** The stored colour stays within [0, 255] in every run from a state where
      it is, and every frame's colour uniform lies in [0, 1] with alpha 1. */
  lemma {:induction false} ColorStaysInRange(w: World, es: seq<Event>, rule: LoadRule)
    requires InRange(w.controls.color)
    ensures InRange(Run(w, es, rule).world.controls.color)
    ensures forall i :: 0 <= i < |Run(w, es, rule).frames| ==>
      var v := Run(w, es, rule).frames[i].color;
      0.0 <= v.x <= 1.0 && 0.0 <= v.y <= 1.0 && 0.0 <= v.z <= 1.0 && v.w == 1.0
    decreases |es|
  {
    if es != [] {
      var s := Step(w, es[0], rule);
      assert InRange(s.world.controls.color);
      ColorStaysInRange(s.world, es[1..], rule);
    }
  }

  /** Every mesh stays at the origin along any run from a state where they
      all are, and so does every mesh a frame of the run draws. */
  lemma {:induction false} OriginKept(w: World, es: seq<Event>, rule: LoadRule)
    requires AllAtOrigin(w)
    ensures AllAtOrigin(Run(w, es, rule).world)
    ensures forall i :: 0 <= i < |Run(w, es, rule).frames| ==> Run(w, es, rule).frames[i].mesh.Center() == Origin
    decreases |es|
  {
    if es != [] {
      var s := Step(w, es[0], rule);
      assert AllAtOrigin(s.world);
      assert forall i :: 0 <= i < |s.frames| ==> s.frames[i].mesh.Center() == Origin;
      OriginKept(s.world, es[1..], rule);
    }
  }

  /** Each level change costs at most one rebuild: over any run, the
      icospheres built plus the change still waiting at the end never exceed
      the change waiting at the start plus the number of level writes. */
  lemma {:induction false} RebuildsBoundedByLevelWrites(w: World, es: seq<Event>, rule: LoadRule)
    ensures Run(w, es, rule).rebuilds + Pending(Run(w, es, rule).world) <= Pending(w) + CountLevelWrites(es)
    decreases |es|
  {
    if es != [] {
      var s := Step(w, es[0], rule);
      assert (if s.rebuilt then 1 else 0) + Pending(s.world)
             <= Pending(w) + (if es[0].SetTesselations? then 1 else 0);
      RebuildsBoundedByLevelWrites(s.world, es[1..], rule);
    }
  }

  /** Any number of frames, with any geometry, shader, colour or
      `Load Scene` in between but no level change, build at most one
      icosphere; none when the level already equals `prevTesselations`. */
  lemma AtMostOneRebuildWithoutLevelWrites(w: World, es: seq<Event>, rule: LoadRule)
    requires CountLevelWrites(es) == 0
    ensures Run(w, es, rule).rebuilds <= 1
    ensures w.controls.tesselations == w.prevTesselations ==> Run(w, es, rule).rebuilds == 0
  {
    RebuildsBoundedByLevelWrites(w, es, rule);
  }

  /** While another geometry is selected, frames and level changes leave the
      icosphere and `prevTesselations` alone: the rebuild is deferred. */
  lemma {:induction false} InactiveIcosphereUntouched(w: World, es: seq<Event>, rule: LoadRule)
    requires w.controls.geometry != "Icosphere"
    requires forall i :: 0 <= i < |es| ==> es[i].RunFrame? || es[i].SetTesselations?
    ensures Run(w, es, rule).world.icosphere == w.icosphere
    ensures Run(w, es, rule).world.prevTesselations == w.prevTesselations
    ensures Run(w, es, rule).rebuilds == 0
    decreases |es|
  {
    if es != [] {
      var s := Step(w, es[0], rule);
      assert s.world.icosphere == w.icosphere && s.world.prevTesselations == w.prevTesselations;
      assert forall i :: 0 <= i < |es[1..]| ==> es[1..][i] == es[i + 1];
      InactiveIcosphereUntouched(s.world, es[1..], rule);
    }
  }

  /** A level change made while the cube or the square is shown waits; the
      first frame after the icosphere is selected again builds it, once, at
      the new level, and draws it. */
  lemma DeferredRebuildOnReselect(w: World, level: int, e1: real, e2: real, rule: LoadRule)
    requires w.controls.geometry != "Icosphere" && level != w.prevTesselations
    ensures var t := Run(w, [SetTesselations(level), RunFrame(e1), ChooseGeometry("Icosphere"), RunFrame(e2)], rule);
      && t.rebuilds == 1
      && |t.frames| == 2
      && t.frames[0].mesh == CurrentGeometry(w)
      && t.frames[1].mesh == UnitIcosphere(level)
      && t.world.prevTesselations == level
  {
    var w1 := w.(controls := w.controls.(tesselations := level));
    var t1 := TickSpec(w1, e1);
    assert t1.world == w1 && !t1.rebuilt;
    var w2 := w1.(controls := w1.controls.(geometry := "Icosphere"));
    var t2 := TickSpec(w2, e2);
    assert t2.rebuilt && t2.frame.mesh == UnitIcosphere(level);
    var es := [SetTesselations(level), RunFrame(e1), ChooseGeometry("Icosphere"), RunFrame(e2)];
    assert Run(w2, es[3..], rule) == Trace(t2.world, [t2.frame], 1) by {
      assert es[3..][1..] == [];
    }
    assert Run(w1, es[1..], rule) == Trace(t2.world, [t1.frame, t2.frame], 1) by {
      assert es[1..][1..] == es[2..] && es[2..][1..] == es[3..];
    }
  }

  /** Switching away from the icosphere and back with the level unchanged
      builds nothing. */
  lemma SwitchAwayAndBackNoRebuild(w: World, other: string, e1: real, e2: real, rule: LoadRule)
    requires w.controls.tesselations == w.prevTesselations
    ensures Run(w, [ChooseGeometry(other), RunFrame(e1), ChooseGeometry("Icosphere"), RunFrame(e2)], rule).rebuilds == 0
  {
    var es := [ChooseGeometry(other), RunFrame(e1), ChooseGeometry("Icosphere"), RunFrame(e2)];
    assert CountLevelWrites(es) == 0 by {
      assert es[3..][1..] == [];
      assert CountLevelWrites(es[3..]) == 0;
      assert es[2..][1..] == es[3..];
      assert CountLevelWrites(es[2..]) == 0;
      assert es[1..][1..] == es[2..];
      assert CountLevelWrites(es[1..]) == 0;
    }
    AtMostOneRebuildWithoutLevelWrites(w, es, rule);
  }

  // ---------------------------------------------------------------------
  // The stale icosphere after `Load Scene`

  /** As written, `Load Scene` does not update `prevTesselations`, so after
      this run the frame shows the icosphere at level 3 while the panel's
      level is 5: with the cube selected, write the level 3, press the
      button, write the level 5, select the icosphere, draw a frame. The
      panel hides the slider while the cube is selected, so the level writes
      here are programmatic ones, or come with no frame between them. */
  lemma StaleIcosphereAfterLoadScene()
    ensures var t := Run(Start(), [SetTesselations(3), ClickLoadScene, SetTesselations(5),
                                   ChooseGeometry("Icosphere"), RunFrame(0.0)], AsWritten);
      && t.world.controls.geometry == "Icosphere"
      && t.world.controls.tesselations == 5
      && |t.frames| == 1
      && t.frames[0].mesh == UnitIcosphere(3)
  {
  }

  /** The icosphere is the unit sphere built for `prevTesselations`. */
  predicate Synchronised(w: World) {
    w.icosphere == UnitIcosphere(w.prevTesselations)
  }

  /** With the corrected `Load Scene`, every run from start-up keeps the
      icosphere built for `prevTesselations`. */
  lemma {:induction false} SyncedRunStaysSynchronised(w: World, es: seq<Event>)
    requires Synchronised(w)
    ensures Synchronised(Run(w, es, Synced).world)
    decreases |es|
  {
    if es != [] {
      var s := Step(w, es[0], Synced);
      assert Synchronised(s.world);
      SyncedRunStaysSynchronised(s.world, es[1..]);
    }
  }

  /** With the corrected `Load Scene`, after any run from start-up a frame
      drawn with the icosphere selected shows it at the panel's level. */
  lemma SyncedTickDrawsPanelLevel(es: seq<Event>, elapsed: real)
    ensures var w := Run(Start(), es, Synced).world;
      w.controls.geometry == "Icosphere" ==>
        TickSpec(w, elapsed).frame.mesh == UnitIcosphere(w.controls.tesselations)
  {
    SyncedRunStaysSynchronised(Start(), es);
  }

  /** The panel shows the tessellation slider only while the icosphere is
      selected, so only then can a user write the level. */
  predicate SliderShown(w: World) {
    w.controls.geometry == "Icosphere"
  }

  /** A run the panel alone can produce when the host draws a frame after
      every panel event: frames, and panel events each followed at once by a
      frame, with level writes only while the slider is shown. */
  predicate PanelRun(w: World, es: seq<Event>, rule: LoadRule)
    decreases |es|
  {
    if es == [] then true
    else if es[0].RunFrame? then PanelRun(Step(w, es[0], rule).world, es[1..], rule)
    else
      && |es| >= 2 && es[1].RunFrame?
      && (es[0].SetTesselations? ==> SliderShown(w))
      && PanelRun(Step(Step(w, es[0], rule).world, es[1], rule).world, es[2..], rule)
  }

  /** The icosphere is built for `prevTesselations`, which equals the
      panel's level. */
  predicate AtPanelLevel(w: World) {
    Synchronised(w) && w.controls.tesselations == w.prevTesselations
  }

  /** Even as written, runs the panel alone produces with a frame after
      every event keep the icosphere at the panel's level: the stale frame of
      `StaleIcosphereAfterLoadScene` needs a level write the panel does not
      offer, or several panel events within one frame. */
  lemma {:induction false} PanelRunsStayAtPanelLevel(w: World, es: seq<Event>)
    requires AtPanelLevel(w) && PanelRun(w, es, AsWritten)
    ensures AtPanelLevel(Run(w, es, AsWritten).world)
    decreases |es|
  {
    if es != [] {
      var s1 := Step(w, es[0], AsWritten);
      if es[0].RunFrame? {
        assert AtPanelLevel(s1.world);
        PanelRunsStayAtPanelLevel(s1.world, es[1..]);
      } else {
        var s2 := Step(s1.world, es[1], AsWritten);
        assert AtPanelLevel(s2.world);
        assert es[1..][1..] == es[2..];
        PanelRunsStayAtPanelLevel(s2.world, es[2..]);
        assert Run(s1.world, es[1..], AsWritten).world == Run(s2.world, es[2..], AsWritten).world;
      }
    }
  }
}
