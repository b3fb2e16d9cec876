/** The static scene `ChartScene.init` builds once: the camera chosen by type, at most one
    light chosen by name, the optional axes helper, the earth container and the hidden
    transform widget. The three.js objects are reduced to the values they are created with. */
module SceneBuilder {
  import opened SceneOptions

  datatype Vec3 = Vec3(x: real, y: real, z: real)

  /** The render surface's size, as `getBoundingClientRect` reports it. */
  datatype Style = Style(width: real, height: real)

  /** Half the orthographic frustum's height. */
  const OrthoScale: real := 200.0
  const Near: real := 1.0
  const Far: real := 1500.0
  const PerspectiveFov: real := 95.0

  datatype Camera =
    | Orthographic(left: real, right: real, top: real, bottom: real, near: real, far: real, position: Vec3, target: Vec3)
    | Perspective(fov: real, aspect: real, near: real, far: real, position: Vec3, target: Vec3)

  /** `createOrthographicCamera`: a frustum 400 high, as wide as the surface's aspect ratio
      makes it, centred on the z axis, seen from z = 500 and looking at the origin. */
  function OrthographicCamera(style: Style): (c: Camera)
    requires style.height != 0.0
    ensures c.Orthographic?
    ensures c.left == -c.right && c.bottom == -c.top && c.top == OrthoScale
    ensures c.right - c.left == 2.0 * OrthoScale * (style.width / style.height)
    ensures (c.right - c.left) * style.height == (c.top - c.bottom) * style.width
    ensures c.near == Near && c.far == Far
    ensures c.position == Vec3(0.0, 0.0, 500.0) && c.target == Vec3(0.0, 0.0, 0.0)
  {
    var k := style.width / style.height;
    var s := OrthoScale;
    Orthographic(-s * k, s * k, s, -s, Near, Far, Vec3(0.0, 0.0, 500.0), Vec3(0.0, 0.0, 0.0))
  }

  /** `createCamera`: a perspective camera whose aspect is the surface's, seen from
      (350, 350, 350) and looking at the origin. */
  function PerspectiveCamera(style: Style): (c: Camera)
    requires style.height != 0.0
    ensures c.Perspective?
    ensures c.aspect * style.height == style.width
    ensures c.fov == PerspectiveFov && c.near == Near && c.far == Far
    ensures c.position == Vec3(350.0, 350.0, 350.0) && c.target == Vec3(0.0, 0.0, 0.0)
  {
    Perspective(PerspectiveFov, style.width / style.height, Near, Far, Vec3(350.0, 350.0, 350.0), Vec3(0.0, 0.0, 0.0))
  }

  /** The choice in `init`: the orthographic camera for exactly that name, the perspective
      camera for every other string. */
  function CameraFor(cameraType: string, style: Style): (c: Camera)
    requires style.height != 0.0
    ensures c.Orthographic? <==> cameraType == "OrthographicCamera"
    ensures c.Orthographic? ==> c == OrthographicCamera(style)
    ensures c.Perspective? ==> c == PerspectiveCamera(style)
  {
    if cameraType == "OrthographicCamera" then OrthographicCamera(style) else PerspectiveCamera(style)
  }

  /** Widening the surface widens the orthographic frustum in proportion; its height stays. */
  lemma OrthographicScalesWithAspect(a: Style, b: Style, f: real)
    requires a.height != 0.0 && b.height == a.height && b.width == f * a.width
    ensures var ca := OrthographicCamera(a);
            var cb := OrthographicCamera(b);
            && cb.right - cb.left == f * (ca.right - ca.left)
            && cb.top - cb.bottom == ca.top - ca.bottom
  {
    var k := a.width / a.height;
    assert b.width / b.height == f * k;
  }

  const LightColor: string := "#fff"

  datatype Light =
    | Directional(color: string, intensity: real, position: Vec3, castShadow: bool)
    | Ambient(color: string, intensity: real)
    | Point(color: string, intensity: real, distance: real, position: Vec3)

  /** The name `createLight` compares against for each kind of light. */
  function KindName(l: Light): string
  {
    match l
    case Directional(_, _, _, _) => "DirectionalLight"
    case Ambient(_, _) => "AmbientLight"
    case Point(_, _, _, _) => "PointLight"
  }

  predicate CastsShadow(l: Light)
  {
    l.Directional? && l.castShadow
  }

  /** `createLight`: the lights it adds to the scene for a light name. */
  function LightsFor(lightType: string): (ls: seq<Light>)
    ensures |ls| <= 1
    ensures |ls| == 1 <==> lightType in {"DirectionalLight", "AmbientLight", "PointLight"}
    ensures forall l :: l in ls ==> KindName(l) == lightType
    ensures forall l :: l in ls ==> (CastsShadow(l) <==> l.Directional?)
    ensures forall l :: l in ls ==> l.color == LightColor && l.intensity == 1.0
  {
    if lightType == "DirectionalLight" then [Directional(LightColor, 1.0, Vec3(2000.0, 2000.0, 3000.0), true)]
    else if lightType == "AmbientLight" then [Ambient(LightColor, 1.0)]
    else if lightType == "PointLight" then [Point(LightColor, 1.0, 100.0, Vec3(200.0, 200.0, 40.0))]
    else []
  }

  /** What ends up directly under the scene. */
  datatype SceneChild = LightNode(light: Light) | AxesHelper(size: real) | EarthContainerNode | TransformWidget

  /** The scene's children laid out in the order `init` and `transformControl` add them:
      the lights, the helper when asked for, the earth container, the transform widget. */
  function Assemble(ls: seq<Light>, helper: bool): (cs: seq<SceneChild>)
    ensures |cs| == |ls| + (if helper then 1 else 0) + 2
    ensures forall i :: 0 <= i < |ls| ==> cs[i] == LightNode(ls[i])
    ensures cs[|cs| - 2..] == [EarthContainerNode, TransformWidget]
    ensures helper ==> cs[|ls|] == AxesHelper(250.0)
  {
    var lights := seq(|ls|, i requires 0 <= i < |ls| => LightNode(ls[i]));
    var helpers := if helper then [AxesHelper(250.0)] else [];
    lights + helpers + [EarthContainerNode, TransformWidget]
  }

  /** The scene's children: the light `createLight` chose (if any), the helper when asked
      for, the earth container, the transform widget, in that order. */
  function SceneChildren(o: Options): (cs: seq<SceneChild>)
    ensures |cs| == |LightsFor(LightTypeOf(o))| + (if o.helper then 1 else 0) + 2
    ensures forall i :: 0 <= i < |LightsFor(LightTypeOf(o))| ==> cs[i] == LightNode(LightsFor(LightTypeOf(o))[i])
    ensures cs[|cs| - 2..] == [EarthContainerNode, TransformWidget]
    ensures o.helper ==> cs[|cs| - 3] == AxesHelper(250.0)
  {
    Assemble(LightsFor(LightTypeOf(o)), o.helper)
  }

  /** The layout holds exactly one earth container and one transform widget, the axes
      helper exactly when asked for, and exactly the given lights. */
  lemma AssembleMembers(ls: seq<Light>, helper: bool)
    ensures var cs := Assemble(ls, helper);
            && multiset(cs)[EarthContainerNode] == 1
            && multiset(cs)[TransformWidget] == 1
            && (AxesHelper(250.0) in cs <==> helper)
            && (forall c :: c in cs && c.LightNode? ==> c.light in ls)
            && (forall l :: l in ls ==> LightNode(l) in cs)
  {
    var cs := Assemble(ls, helper);
    var n := |cs| - 2;
    var front := cs[..n];
    assert cs == front + [EarthContainerNode, TransformWidget];
    assert forall i :: 0 <= i < |front| ==> front[i] == cs[i];
    assert multiset(cs)[EarthContainerNode] == 1 && multiset(cs)[TransformWidget] == 1 by {
      assert EarthContainerNode !in front && TransformWidget !in front by {
        forall i | 0 <= i < |front| ensures front[i] != EarthContainerNode && front[i] != TransformWidget {
          assert i < |ls| || (helper && i == |ls|);
        }
      }
      assert multiset(cs) == multiset(front) + multiset([EarthContainerNode, TransformWidget]);
    }
    assert AxesHelper(250.0) in cs <==> helper by {
      if AxesHelper(250.0) in cs {
        var i :| 0 <= i < |cs| && cs[i] == AxesHelper(250.0);
        assert !(i < |ls|) && i < n;
      }
    }
    assert forall c :: c in cs && c.LightNode? ==> c.light in ls by {
      forall c | c in cs && c.LightNode? ensures c.light in ls {
        var i :| 0 <= i < |cs| && cs[i] == c;
        assert i < |ls|;
        assert c.light == ls[i];
      }
    }
    assert forall l :: l in ls ==> LightNode(l) in cs by {
      forall l | l in ls ensures LightNode(l) in cs {
        var i :| 0 <= i < |ls| && ls[i] == l;
        assert cs[i] == LightNode(l);
      }
    }
  }

  /** The scene holds exactly one earth container and one transform widget, the axes helper
      exactly when asked for, and exactly the light `createLight` chose. */
  lemma SceneChildrenMembers(o: Options)
    ensures var cs := SceneChildren(o);
            && multiset(cs)[EarthContainerNode] == 1
            && multiset(cs)[TransformWidget] == 1
            && (AxesHelper(250.0) in cs <==> o.helper)
            && (forall c :: c in cs && c.LightNode? ==> c.light in LightsFor(LightTypeOf(o)))
            && (forall l :: l in LightsFor(LightTypeOf(o)) ==> LightNode(l) in cs)
  {
    AssembleMembers(LightsFor(LightTypeOf(o)), o.helper);
  }

  /** With no options at all, the scene holds one shadow-casting directional light, the
      earth container and the widget, and the camera is orthographic. */
  lemma DefaultScene(style: Style)
    requires style.height != 0.0
    ensures var o := Merge(NoParams);
            && CameraFor(CameraTypeOf(o), style).Orthographic?
            && SceneChildren(o) == [LightNode(Directional(LightColor, 1.0, Vec3(2000.0, 2000.0, 3000.0), true)),
                                    EarthContainerNode, TransformWidget]
  {
    MergeNothing();
  }
}
