# ChartScene core of GlobeStream3D, modelled in Dafny

GlobeStream3D draws an interactive 3D globe with three.js. `ChartScene`
(`src/lib/chartScene.ts`) builds the scene once and then drives the render loop. The
scene holds at most one light, an optional axes helper, the "earth container" and the
hidden transform widget; the camera is kept beside the scene. The container holds the static earth group and the overlay sprite. It also holds data groups
that callers replace, append or remove by type label.

This project models the parts of that class that have behaviour of their own. The
three.js objects become plain values and counters.

- `Gate` (`frame_gate.dfy`): the closure returned by `limitFPS`, as the class
  `FrameGate`. It keeps an elapsed-time accumulator `timeS` and a threshold of 1/30 s.
  With `isLimit` set it lets every call through and never looks at the clock. Otherwise
  it adds the clock delta to `timeS`. It passes, and resets `timeS` to zero, only when
  the sum is strictly above 1/30. The flag's name reads backwards: `isLimit == true`
  turns the throttle off. The constructor passes `true`, so the scene renders on every
  tick. `Step` and `Run` give the calls' meaning as functions; the lemmas cover pass-through
  runs, quiet runs, the crossing call, and bounds on the pass rate. The reset to zero on
  a pass throws away whatever the sum overshot 1/30 by, so the gate renders at most 30
  times per second of clock time but can fall well short of it. Throttled, its
  long-run rate is only guaranteed to be at least 1/(1/30 + dmax) when every delta is
  at most dmax. At a steady 60 Hz clock every third call passes, so one second gives 20
  renders, not the 30 that the comment at `limitFPS` expects.
- `SceneOptions` (`scene_options.dfy`): the spread merge of the caller's parameters over
  `initOptions`, and the defaults that `init` gives the camera type and the light.
- `SceneBuilder` (`scene_builder.dfy`): `createOrthographicCamera`, `createCamera`, the
  camera choice in `init`, `createLight`, and the scene's children in the order they are
  added.
- `Container` (`earth_container.dfy`): the earth container's children and the effects of
  `setData`, `addData` and `remove` on them, as functions.
- `Animation` (`animation.dfy`): one `animate` tick as a transition on the gate's
  accumulator, the Y rotation, and the counts of renders, tween updates and requested
  frames. Runs of ticks are tied to runs of the gate.
- `Chart` (`chart_scene.dfy`): the class `ChartScene`. Its constructor merges the
  options, builds the scene and runs the first tick, because `init` calls `animate()`
  once. `Animate`, `SetData`, `AddData` and `Remove` are methods proved against the
  functions above.

What the model treats as input or assumption:

- The clock delta is a non-negative `real` passed to each tick.
- The size of the render surface (`getBoundingClientRect`) is a `Style(width, height)`
  value.
- `OperateView.setData` is not part of this model. Its result is an input: the built
  groups, or `Failed` for a build that throws or rejects.
- `OperateView.remove` is not part of this model either. `Container.Removed` ASSUMES it
  detaches exactly the data groups of the given type whose id is listed, or all of them
  for `"removeAll"`. It is also assumed never to touch the earth group or the sprite.
- `Container.SetDataReplaces` further ASSUMES that every group a build returns carries
  the build's type label (`AllOfKind`).

## Model

| member | source | states |
|---|---|---|
| `Gate.FrameGate.constructor` | src/lib/chartScene.ts:159-167 | a new gate keeps its mode and starts with an empty accumulator |
| `Gate.FrameGate.Pass` | src/lib/chartScene.ts:168-176 | pass-through mode always answers true and leaves `timeS` alone; throttled, it answers true exactly when `timeS + delta > 1/30`, resets `timeS` to 0 when it does and keeps the sum when it does not; `0 <= timeS <= 1/30` is preserved |
| `Gate.Step` | src/lib/chartScene.ts:168-176 | pass-through mode passes and leaves the accumulator alone; throttled, a call passes exactly when the sum is strictly above 1/30; one call keeps the accumulator within [0, 1/30] for non-negative deltas; a throttled pass leaves it at 0; a call that does not pass is throttled and keeps the full sum, which is at most 1/30 |
| `Gate.Run` | src/lib/chartScene.ts:168-176 | a run of calls passes at most once per call, and keeps the accumulator within [0, 1/30] |
| `Gate.UnlimitedRun` | src/lib/chartScene.ts:169 | in pass-through mode every call of a run passes and the accumulator never changes |
| `Gate.QuietRun` | src/lib/chartScene.ts:170-175 | throttled, deltas whose total keeps the accumulator at or below 1/30 never pass and leave the whole total in the accumulator |
| `Gate.CrossingPassesOnce` | src/lib/chartScene.ts:171-174 | the first call that takes the accumulator strictly past 1/30 is the only pass of the run and leaves the accumulator at 0 |
| `Gate.RunPassesBounded` | src/lib/chartScene.ts:171-174 | rate bound from above: passes × 1/30 never exceeds the clock time consumed (elapsed time less what the accumulator holds), so at most 30 passes per second |
| `Gate.RunPassesKeepUp` | src/lib/chartScene.ts:171-174 | rate bound from below: with every delta at most `dmax`, the clock time consumed is at most passes × (1/30 + dmax); the overshoot lost at each reset means the rate can fall to 1/(1/30 + dmax) |
| `Gate.SumConstant` | src/lib/chartScene.ts:170-171 | helper of `SixtyHertzOneSecond`: k equal deltas of d add up to k × d (the accumulator's sum at line 171) |
| `Gate.ThreeFramesPerPass` | src/lib/chartScene.ts:162-175 | throttled, from an empty accumulator, three deltas of 1/60 give exactly one pass (on the third) and leave the accumulator at 0 |
| `Gate.SixtyHertzRun` | src/lib/chartScene.ts:162-175 | throttled, from an empty accumulator, 3n deltas of 1/60 give exactly n passes and leave the accumulator at 0 |
| `Gate.SixtyHertzOneSecond` | src/lib/chartScene.ts:162-175 | sixty deltas of 1/60 add up to one second of clock time and give exactly 20 passes, not 30 |
| `SceneOptions.Merge` | src/lib/chartScene.ts:48-52 | each merged field is the caller's value when supplied, otherwise the `initOptions` default (helper false, autoRotate true, rotateSpeed 0.01); camera type and light are passed through without a default |
| `SceneOptions.CameraTypeOf` | src/lib/chartScene.ts:64 | the camera type is the merged value, or "OrthographicCamera" when none was given |
| `SceneOptions.LightTypeOf` | src/lib/chartScene.ts:65 | the light type is the merged value, or "DirectionalLight" when none was given |
| `SceneOptions.MergeNothing` | src/lib/chartScene.ts:30-34 | with no parameters the scene gets an orthographic camera, a directional light, no helper, and rotation at 0.01 |
| `SceneOptions.MergeStable` | src/lib/chartScene.ts:48-52 | passing the merged values back in as parameters gives the same options: defaults only fill gaps |
| `SceneBuilder.OrthographicCamera` | src/lib/chartScene.ts:91-98 | the frustum is symmetric, top 200 and bottom -200, width 400·width/height, so its aspect equals the surface's; near 1, far 1500, camera at (0, 0, 500) looking at the origin |
| `SceneBuilder.PerspectiveCamera` | src/lib/chartScene.ts:102-112 | aspect × height = width; fov 95, near 1, far 1500, camera at (350, 350, 350) looking at the origin |
| `SceneBuilder.CameraFor` | src/lib/chartScene.ts:72-76 | orthographic exactly for "OrthographicCamera", the perspective camera for any other string |
| `SceneBuilder.OrthographicScalesWithAspect` | src/lib/chartScene.ts:92-94 | scaling the surface width by f scales the frustum width by f and keeps its height |
| `SceneBuilder.LightsFor` | src/lib/chartScene.ts:113-130 | at most one light, and exactly one for "DirectionalLight", "AmbientLight" or "PointLight"; its kind matches the name; only the directional light casts shadows; colour "#fff", intensity 1 |
| `SceneBuilder.Assemble` | src/lib/chartScene.ts:61-223 | the children are the given lights in order, then the axes helper when asked for, then the earth container and the transform widget last, and nothing else |
| `SceneBuilder.AssembleMembers` | src/lib/chartScene.ts:61-223 | that layout holds one earth container, one transform widget, the axes helper exactly when asked for, and exactly the given lights |
| `SceneBuilder.SceneChildren` | src/lib/chartScene.ts:61-223 | in the order `init` and `transformControl` add them: the light `createLight` chooses (if any) first, the axes helper next when `helper` is set, then the earth container and the transform widget; the count is the number of lights, plus one for the helper, plus two |
| `SceneBuilder.SceneChildrenMembers` | src/lib/chartScene.ts:61-223 | the scene holds exactly one earth container and one transform widget, the axes helper exactly when `helper` is set, and exactly the light `createLight` chooses |
| `SceneBuilder.DefaultScene` | src/lib/chartScene.ts:62-77 | with no parameters: orthographic camera, and scene children [shadow-casting directional light, earth container, widget] |
| `Container.Removed` | src/lib/chartScene.ts:207-209 | (assumed `OperateView.remove`) removal never lengthens the children |
| `Container.RemovedMembers` | src/lib/chartScene.ts:207-209 | (assumed `OperateView.remove`) the children kept are exactly those the selection does not name |
| `Container.RemovedNothing` | src/lib/chartScene.ts:207-209 | a removal that selects nothing leaves the children exactly as they were |
| `Container.RemovedIdempotent` | src/lib/chartScene.ts:207-209 | repeating a removal removes nothing more |
| `Container.SurvivorsUnselected` | src/lib/chartScene.ts:192 | after the wildcard removal of a type, no later removal of that type finds anything to take |
| `Container.RemoveAllOfKind` | src/lib/chartScene.ts:192 | the wildcard removal of a type takes every group of a build made only of that type |
| `Container.AfterAdd` | src/lib/chartScene.ts:199-206 | the old children stay as a prefix, the built groups follow them, and a failed build changes nothing |
| `Container.AfterSet` | src/lib/chartScene.ts:190-198 | the post-removal children stay as a prefix, a successful build's groups follow them, and a failed build leaves exactly the post-removal children (the removal is not rolled back) |
| `Container.RemovedKeepsOtherKinds` | src/lib/chartScene.ts:207-209 | removing under one type leaves the data groups of every other type as they were, in order |
| `Container.RemoveAllEmpties` | src/lib/chartScene.ts:192 | `removeAll` leaves no data group of that type |
| `Container.SetDataReplaces` | src/lib/chartScene.ts:190-198 | after a successful `setData`, the type's data groups are exactly the built ones in build order, and everything else is unchanged |
| `Container.SetThenRemoveAll` | src/lib/chartScene.ts:190-209 | `setData(t, …)` then `remove(t)` leaves no data group of type t, whether the build succeeded or not |
| `Container.AddTwice` | src/lib/chartScene.ts:199-206 | two successful `addData` calls leave the old children, then the first build's groups, then the second's |
| `Container.StaticsSurvive` | src/lib/chartScene.ts:136-143 | the earth group and the sprite survive every removal and every `setData` |
| `Container.MarkersScenario` | src/lib/chartScene.ts:190-209 | `setData("markers", [a, b])` then `remove("markers", ["a"])` leaves exactly group b under "markers" |
| `Animation.Tick` | src/lib/chartScene.ts:178-189 | when the tick's foreign calls return, it requests exactly one next frame; it renders at most once, and exactly when the gate passes; it updates tweens once per render; it turns the container by `rotateSpeed` only when it rendered and `autoRotate` is set |
| `Animation.TicksFollowGate` | src/lib/chartScene.ts:178-189 | over any run of ticks, renders and tween updates equal the gate's passes, rotation equals passes × `rotateSpeed` when rotating, and one frame is requested per tick |
| `Animation.UnlimitedTicks` | src/lib/chartScene.ts:178-185 | in pass-through mode n ticks give n renders and, when rotating, n × `rotateSpeed` of rotation |
| `Animation.QuietTicks` | src/lib/chartScene.ts:178-185 | throttled ticks whose deltas total at most 1/30 render nothing and do not rotate |
| `Chart.ChartScene.constructor` | src/lib/chartScene.ts:47-57 | the options are the merge of the parameters; the gate is in pass-through mode; camera and scene children are as chosen from the options; the container holds the earth group and the sprite; the first tick has run (one render, one requested frame, one rotation step if rotating) |
| `Chart.ChartScene.Animate` | src/lib/chartScene.ts:178-189 | the tick's new state is `Tick` of the old one; a next frame is requested whenever the tick's foreign calls return; with the pass-through gate every tick renders; with no render there is no rotation and no tween update |
| `Chart.ChartScene.SetData` | src/lib/chartScene.ts:190-198 | the children become `AfterSet` of the old ones, and the earth group and sprite stay |
| `Chart.ChartScene.AddData` | src/lib/chartScene.ts:199-206 | the children become `AfterAdd` of the old ones |
| `Chart.ChartScene.Remove` | src/lib/chartScene.ts:207-209 | with `ids` defaulting to `"removeAll"`, the children become `Removed` of the old ones |
| `Chart.ReplaceThenClear` | src/lib/chartScene.ts:47-209 | a default scene, ticked twice around a `setData` and then cleared with `remove`, has rendered three times, turned by three rotation steps and holds no group of that type |

## Left out

- Rendering, and the three.js classes `Scene`, `Camera`, `Light`, `Group` and `WebGLRenderer`. These are foreign library calls and become records and counters. `setPixelRatio`, `setSize` and `setClearColor` (`createRender`) are left out for the same reason.
- DOM work: `getBoundingClientRect` gives the `Style` input, and `appendChild` is left out.
- `OrbitControls` setup and the `TransformControls` configuration are left out. They only set properties on foreign widgets; the widget is one scene child.
- Rotation from pointer gestures through the transform widget is left out. `rotationY` counts only the animation's own steps.
- `requestAnimationFrame` and the loop that never ends. Each tick counts the frame it asks for, and runs are finite sequences of ticks.
- Interleaving of the async `setData`/`addData` with ticks or with each other. Each call is modelled as one atomic step, so the frame that sees the removal without the insert cannot be observed.
- `on()` just hands the callback to `EventStore`, which is not part of this model, so nothing is modelled for it.
- `OperateView`, `Store`, `EventStore`, `CreateEarth`, `MapShape`, `sprite` and `tween.update` are not part of this model. Builds are inputs, removal is the assumed filter above, and a tween update is a counter.
- The store configuration (`_store.setConfig(config)`) is left out: the core only forwards it.
- `console.log` in the catch blocks is left out.
- Animation.Tick / Chart.ChartScene.Animate: a throw from `tweenUpdate`, `rotateY` or `renderer.render` is left out. The source then skips `requestAnimationFrame` and the loop ends for good; the model treats these calls as returning, so every tick schedules the next.
- A throw from `OperateView.remove` is left out. The model assumes it does not throw.
- `Clock.getDelta()` and `rotateY` use IEEE doubles in the source. The model uses `real` and does not reduce angles mod 2π.
- The child moves that three.js `add` does when a group already has a parent are left out. Built groups are assumed fresh.
- SceneOptions.Merge: `Params` has no way to supply a key set to `undefined`. In the source's spread such a key would overwrite the default with `undefined`.
- SceneBuilder.OrthographicCamera: requires a non-zero surface height. The source divides by the height with no check, and a zero height gives an infinite or NaN frustum that `real` cannot represent. The same precondition sits on `PerspectiveCamera`, `CameraFor` and the `ChartScene` constructor.
