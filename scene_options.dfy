/** The options a `ChartScene` is built with: the caller's partial parameters spread
    over the built-in defaults, and the defaults `init` applies for the two keys the
    built-in set does not cover. */
module SceneOptions {
  import opened Wrappers

  /** What a caller may pass; `None` is a key the caller left out. Only the keys the
      core reads are kept: the render surface is below as `SceneBuilder.Style`, and the
      visualisation configuration goes straight to the store. */
  datatype Params = Params(
    cameraType: Option<string>,
    light: Option<string>,
    helper: Option<bool>,
    autoRotate: Option<bool>,
    rotateSpeed: Option<real>)

  /** The merged options. `cameraType` and `light` stay optional: no default is merged
      in for them, `init` supplies one when it reads them. */
  datatype Options = Options(
    cameraType: Option<string>,
    light: Option<string>,
    helper: bool,
    autoRotate: bool,
    rotateSpeed: real)

  const DefaultHelper: bool := false
  const DefaultAutoRotate: bool := true
  const DefaultRotateSpeed: real := 0.01
  const DefaultCameraType: string := "OrthographicCamera"
  const DefaultLight: string := "DirectionalLight"

  /** A caller who passes nothing. */
  const NoParams: Params := Params(None, None, None, None, None)

  /** One key of an object spread: the later object's value wins when it has the key. */
  function Spread<T>(earlier: T, later: Option<T>): T
  {
    later.GetOr(earlier)
  }

  /** `{...this.options, ...this.initOptions, ...params}`; `this.options` is still unset
      at that point and contributes no key. */
  function Merge(p: Params): (o: Options)
    ensures p.helper.Some? ==> o.helper == p.helper.value
    ensures p.helper.None? ==> o.helper == DefaultHelper
    ensures p.autoRotate.Some? ==> o.autoRotate == p.autoRotate.value
    ensures p.autoRotate.None? ==> o.autoRotate == DefaultAutoRotate
    ensures p.rotateSpeed.Some? ==> o.rotateSpeed == p.rotateSpeed.value
    ensures p.rotateSpeed.None? ==> o.rotateSpeed == DefaultRotateSpeed
    ensures o.cameraType == p.cameraType && o.light == p.light
  {
    Options(
      p.cameraType,
      p.light,
      Spread(DefaultHelper, p.helper),
      Spread(DefaultAutoRotate, p.autoRotate),
      Spread(DefaultRotateSpeed, p.rotateSpeed))
  }

  /** The camera type `init` destructures, with its default. */
  function CameraTypeOf(o: Options): (t: string)
    ensures o.cameraType.Some? ==> t == o.cameraType.value
    ensures o.cameraType.None? ==> t == DefaultCameraType
  {
    o.cameraType.GetOr(DefaultCameraType)
  }

  /** The light type `init` destructures, with its default. */
  function LightTypeOf(o: Options): (t: string)
    ensures o.light.Some? ==> t == o.light.value
    ensures o.light.None? ==> t == DefaultLight
  {
    o.light.GetOr(DefaultLight)
  }

  /** A caller who passes nothing gets an orthographic camera, a directional light, no
      helper, and rotation at 0.01 per render. */
  lemma MergeNothing()
    ensures var o := Merge(NoParams);
            && CameraTypeOf(o) == "OrthographicCamera" && LightTypeOf(o) == "DirectionalLight"
            && !o.helper && o.autoRotate && o.rotateSpeed == 0.01
  {
  }

  /** Passing back every merged value, as a full set of parameters, gives the same options:
      the defaults only fill gaps and never override a supplied key. */
  lemma MergeStable(p: Params)
    ensures var o := Merge(p);
            Merge(Params(o.cameraType, o.light, Some(o.helper), Some(o.autoRotate), Some(o.rotateSpeed))) == o
  {
  }
}
