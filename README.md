# A-Frame `camera` component: role arbitration and configuration push

This project models the `camera` component of A-Frame (`src/components/camera.js`).
Each entity that carries the component owns one three.js perspective camera. On every
`update` the component copies its configuration (`far`, `fov`, `near`, `zoom`) into that
camera. It takes the aspect ratio from the embedding element or from the window, depending
on the `embedded` flag that `init` fixes once. It then decides whether to ask the scene's
camera system to make the entity the active camera, to disable it as the active camera,
to make it the spectator camera, or to disable it as the spectator camera.

Files:

- `host.dfy` (module `Host`): the collaborators at the component's boundary. These are
  the entity (only its `camera` object3D slot), the projection object (five parameters and
  an opaque "recompute the matrix" step), and the camera system (its `activeCameraEl` /
  `spectatorCameraEl` slots and a log `issued` of every request made of it, in order).
- `camera.dfy` (module `Camera`): the schema record and its defaults, and the two handler
  decisions as pure functions. It also holds `UpdateCalls`, the requests one update makes,
  and the component class: `Init`, `Update`, `UpdateActiveCamera`, `UpdateSpectatorCamera`
  and `Remove`.
- `camera_runs.dfy` (module `CameraRuns`): properties of a run of successive updates of
  one component. Each update's previous snapshot is the data of the update before it. The
  slots each update observes are arbitrary, because other entities may change them in
  between.

The previous snapshot `oldData` is an `Option`. On the first update the framework passes
an empty object. Its `active` and `spectator` are undefined, so the strict comparisons on
lines 71 and 88 are false, exactly as when there is no snapshot at all. Both cases are
`None`.

The camera system's own code is not part of this model. `SetActiveCamera` and
`SetSpectatorCamera` store the entity in their slot and log the request. `DisableActiveCamera`
and `DisableSpectatorCamera` only log the request; their contracts say nothing about the
slots afterwards, because which camera the system promotes next is not known here. So
`Update` returns, as a ghost value, the spectator slot that its spectator handler read. That
slot is the one from before the update unless the active handler just issued a disable.

The component's `remove` relinquishes no role: it only detaches the projection camera from
the entity. After `Remove`, `activeCameraEl` or `spectatorCameraEl` may still name the
removed entity.

## Model

| member | source | states |
|---|---|---|
| Camera.ActiveDecision | src/components/camera.js:66-81 | With `spectator` true, or with a snapshot whose `active` equals the new one, no request is made. Otherwise the entity asks to become active exactly when `active` is true and it does not hold the active slot, and asks to disable the active camera exactly when `active` is false and it holds the slot. A claim always names this entity. |
| Camera.SpectatorDecision | src/components/camera.js:83-98 | Skipped only when a snapshot exists with an equal `spectator`. Otherwise a non-holder with `spectator` true asks to become spectator, the holder with `spectator` false asks to disable the spectator camera, and every other case makes no request. |
| Camera.ActiveAction.Calls | src/components/camera.js:74-80 | An active-role decision issues at most one request, always about the active role, and none exactly for "no call". |
| Camera.SpectatorAction.Calls | src/components/camera.js:91-97 | A spectator-role decision issues at most one request, always about the spectator role, and none exactly for "no call". |
| Camera.UpdateCalls | src/components/camera.js:62-63 | One update makes at most two requests. Any active-role request comes before any spectator-role request, so there is at most one per role. With `spectator` true no active-role request is made. |
| Camera.DefaultsClaimActive | src/components/camera.js:9-15 | A camera at the schema defaults (`active` true, `spectator` false) makes exactly one request on its first update, a claim of the active role, when it holds neither slot. |
| Camera.CameraComponent.Init | src/components/camera.js:22-34 | `embedded` is "embedded attribute set and not in VR mode". A fresh projection camera, in sync with its parameters, is created and attached to the entity. No request is made of the camera system. |
| Camera.CameraComponent.Update | src/components/camera.js:39-64 | `far`, `fov`, `near` and `zoom` are copied verbatim into the camera. `aspect` comes from the embedding element when `embedded` and from the window otherwise. The projection is recomputed from the new parameters. `data` and the camera object are not reassigned, and `embedded` is a constant. The requests appended to the system's log are exactly `UpdateCalls`, with the active handler first. With no request the system is unchanged. Unless a handler disables, the active slot names the entity after its claim and is otherwise as before, and likewise the spectator slot. |
| Camera.CameraComponent.UpdateActiveCamera | src/components/camera.js:66-81 | Appends ActiveDecision's request to the log, and no other. With no request the system is unchanged. After a claim that is not skipped, the entity holds the active slot, whether it set the slot now or already held it before. |
| Camera.CameraComponent.UpdateSpectatorCamera | src/components/camera.js:83-98 | Appends SpectatorDecision's request to the log, and no other. With no request the system is unchanged. After a claim that is not skipped, the entity holds the spectator slot. |
| Camera.CameraComponent.Remove | src/components/camera.js:103-105 | Detaches the camera from the entity and leaves the camera system, both of its slots included, unchanged. |
| Host.PerspectiveCamera.constructor | src/components/camera.js:30 | A new projection camera starts with its matrix in sync with its parameters. |
| Host.PerspectiveCamera.UpdateProjectionMatrix | src/components/camera.js:60 | After the recompute, the matrix reflects the current five parameters, which are not changed. |
| Host.CameraSystem.SetActiveCamera | src/components/camera.js:76 | The request is logged and the active slot names the entity. The spectator slot is untouched. |
| Host.CameraSystem.DisableActiveCamera | src/components/camera.js:79 | The request is logged. Nothing is promised about the slots. |
| Host.CameraSystem.SetSpectatorCamera | src/components/camera.js:93 | The request is logged and the spectator slot names the entity. The active slot is untouched. |
| Host.CameraSystem.DisableSpectatorCamera | src/components/camera.js:96 | The request is logged. Nothing is promised about the slots. |
| CameraRuns.UpdateCounts | src/components/camera.js:62-63 | One update makes at most one active-role request, and none when the active handler is skipped. It makes at most one spectator-role request, and none when the spectator handler is skipped. |
| CameraRuns.RunLength | src/components/camera.js:62-63 | Over any run of updates, at most two requests per update. |
| CameraRuns.ActiveRequestsOnlyOnChange | src/components/camera.js:71-80 | Over any run, whatever the slots do, the number of active-role requests is at most the number of updates in which `active` changed (or the first update) while `spectator` was false. |
| CameraRuns.SpectatorRequestsOnlyOnChange | src/components/camera.js:88-97 | Over any run, the number of spectator-role requests is at most the number of updates in which `spectator` changed (or the first update). |
| CameraRuns.SteadyRunIssuesNothing | src/components/camera.js:71-88 | A component whose `active` and `spectator` keep the values of its starting snapshot makes no request at all, whatever the slots do. A demoted camera never reclaims its role on its own. |
| CameraRuns.SpectatorRunLeavesActiveRole | src/components/camera.js:71 | While `spectator` stays true, no active-role request is made, whatever `active` and the snapshots are. |
| CameraRuns.DemotedCameraDoesNotReclaim | src/components/camera.js:71-76 | A camera that claims the active role on its first update, and then finds the slot taken by another camera, makes no request when next updated with unchanged data. |

## Left out

- The three.js `PerspectiveCamera` internals and `updateProjectionMatrix`: the projection object is a holder of five parameters. The recompute step only records which parameters the matrix was computed from. The constructor's initial values are three.js's, not part of this model.
- The numeric aspect ratio: the parent-element ratio (`offsetWidth / offsetHeight`) and the window ratio (`innerWidth / innerHeight`) are DOM size queries with floating-point division. They are inputs of `Update`, which models only which one is selected. The source computes the parent-element ratio on every update, even when `embedded` is false. If the canvas has no parent element, that throws before any field is copied and before either handler runs. `Update` takes both ratios as plain values, so it does not model this abort. `this.canvas` is kept only as that source and is not a field.
- The camera system's implementation: what `disableActiveCamera` and `disableSpectatorCamera` do to the slots is left unspecified. Nested updates that `setActiveCamera` triggers on other cameras are not modelled, and neither is anything else beyond storing the entity in its slot on a set.
- The component framework: `registerComponent`, schema parsing and min-clamping, `el.setObject3D` / `removeObject3D` (reduced to one `camera` slot on the entity), and `sceneEl.getAttribute('embedded')` / `sceneEl.is('vr-mode')` (reduced to two booleans given to `Init`). Configuration values are assumed validated, as plain reals. Assigning `data` before each update is the framework's job and is not a method here.
- The `console.log` calls, which are logging only.
