/** `ChartScene`: the object that owns the scene, the frame gate and the earth container,
    runs one animation tick at a time, and applies data mutations to the container. */
module Chart {
  import opened SceneOptions
  import opened SceneBuilder
  import opened Container
  import opened Animation
  import opened Gate

  class ChartScene {
    const options: Options
    const style: Style
    const camera: Camera
    /** The scene's direct children; nothing in the core adds to the scene after construction. */
    const sceneChildren: seq<SceneChild>
    /** The closure `isPass`, created as `limitFPS(true)`. */
    const gate: FrameGate
    /** The earth container's children. */
    var children: seq<Node>
    /** The earth container's accumulated rotation about its Y axis, in radians. */
    var rotationY: real
    var renders: nat
    var tweenUpdates: nat
    /** Next-frame callbacks the ticks have asked the host for. */
    var scheduled: nat

    ghost predicate Valid()
      reads this, gate
    {
      gate.Valid() && EarthGroup in children && SpriteNode in children
    }

    /** The state one animation tick reads and writes. */
    ghost function State(): LoopState
      reads this, gate
    {
      LoopState(gate.timeS, rotationY, renders, tweenUpdates, scheduled)
    }

    /** The constructor: merge the options, create the pass-through gate, build the scene
        (`init`, which ends by running the first tick), and attach the widget. */
    constructor (params: Params, style: Style)
      requires style.height != 0.0
      ensures Valid() && fresh(gate)
      ensures options == Merge(params) && this.style == style
      ensures camera == CameraFor(CameraTypeOf(options), style)
      ensures sceneChildren == SceneChildren(options)
      ensures gate.isLimit && gate.timeS == 0.0
      ensures children == Initial
      ensures renders == 1 && tweenUpdates == 1 && scheduled == 1
      ensures rotationY == if options.autoRotate then options.rotateSpeed else 0.0
    {
      options := Merge(params);
      this.style := style;
      gate := new FrameGate(true);
      camera := CameraFor(CameraTypeOf(Merge(params)), style);
      sceneChildren := SceneChildren(Merge(params));
      children := Initial;
      rotationY, renders, tweenUpdates, scheduled := 0.0, 0, 0, 0;
      new;
      Animate(0.0);
    }

    /** One `animate` tick; `delta` is what the gate's clock would report. */
    method Animate(delta: real)
      requires Valid() && 0.0 <= delta
      modifies this`rotationY, this`renders, this`tweenUpdates, this`scheduled, gate
      ensures Valid()
      ensures State() == Tick(gate.isLimit, options.autoRotate, options.rotateSpeed, old(State()), delta)
      ensures scheduled == old(scheduled) + 1
      ensures gate.isLimit ==> renders == old(renders) + 1
      ensures renders == old(renders) ==> rotationY == old(rotationY) && tweenUpdates == old(tweenUpdates)
    {
      var pass := gate.Pass(delta);
      if pass {
        tweenUpdates := tweenUpdates + 1;
        if options.autoRotate {
          rotationY := rotationY + options.rotateSpeed;
        }
        renders := renders + 1;
      }
      scheduled := scheduled + 1;
    }

    /** `setData(type, data)`: remove every data group of the type, then append what the
        build gave; a failed build leaves the container as the removal left it. */
    method SetData(kind: string, built: Build)
      requires Valid()
      modifies this`children
      ensures Valid()
      ensures children == AfterSet(old(children), kind, built)
    {
      StaticsSurvive(children, kind, RemoveAll, built);
      children := Removed(children, kind, RemoveAll);
      match built {
        case Built(groups) =>
          children := children + groups;
        case Failed =>
      }
    }

    /** `addData(type, data)`: append what the build gave; a failed build changes nothing.
        The type only steers the build, which arrives here as `built`. */
    method AddData(kind: string, built: Build)
      requires Valid()
      modifies this`children
      ensures Valid()
      ensures children == AfterAdd(old(children), built)
    {
      match built {
        case Built(groups) =>
          children := children + groups;
        case Failed =>
      }
    }

    /** `remove(type, ids = "removeAll")`. */
    method Remove(kind: string, ids: Selection := RemoveAll)
      requires Valid()
      modifies this`children
      ensures Valid()
      ensures children == Removed(old(children), kind, ids)
    {
      StaticsSurvive(children, kind, ids, Failed);
      children := Removed(children, kind, ids);
    }
  }

  /** A client: a default scene that gets data replaced and then removed keeps rendering on
      every tick, keeps its static earth content, and holds no group of that type. */
  method ReplaceThenClear(groups: seq<Node>) returns (scene: ChartScene)
    ensures scene.Valid()
    ensures scene.renders == 3 && scene.rotationY == 3.0 * DefaultRotateSpeed
    ensures OfKind(scene.children, "points") == []
  {
    scene := new ChartScene(NoParams, Style(800.0, 600.0));
    MergeNothing();
    assert scene.gate.isLimit && scene.options.autoRotate && scene.options.rotateSpeed == DefaultRotateSpeed;
    assert scene.renders == 1 && scene.rotationY == DefaultRotateSpeed;
    scene.Animate(0.016);
    assert scene.renders == 2 && scene.rotationY == 2.0 * DefaultRotateSpeed;
    ghost var before := scene.children;
    scene.SetData("points", Built(groups));
    scene.Animate(0.016);
    assert scene.renders == 3 && scene.rotationY == 3.0 * DefaultRotateSpeed;
    scene.Remove("points");
    SetThenRemoveAll(before, "points", Built(groups));
  }
}
