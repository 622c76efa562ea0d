/**
 * The collaborators the camera component talks to but does not own the code
 * of: scene-graph entities, the three.js projection object and the scene's
 * camera system.  Only what the component reads or writes is modelled.
 */
module Host {

  datatype Option<T> = None | Some(value: T)

  /** The projection object owned by one camera entity. */
  class PerspectiveCamera {
    var aspect: real
    var far: real
    var fov: real
    var near: real
    var zoom: real
    /** The parameters the projection matrix was last recomputed from. */
    var projectedFrom: Lens

    function CurrentLens(): Lens
      reads this
    {
      Lens(aspect, far, fov, near, zoom)
    }

    /** The projection matrix reflects the current parameters. */
    predicate InSync()
      reads this
    {
      projectedFrom == CurrentLens()
    }

    /** three.js's own initial values; how the matrix is computed is not modelled. */
    constructor ()
      ensures InSync()
    {
      aspect, far, fov, near, zoom := 1.0, 2000.0, 50.0, 0.1, 1.0;
      projectedFrom := Lens(1.0, 2000.0, 50.0, 0.1, 1.0);
    }

    /** Opaque recomputation of the projection from the five parameters. */
    method UpdateProjectionMatrix()
      modifies this`projectedFrom
      ensures InSync()
    {
      projectedFrom := CurrentLens();
    }
  }

  /** The parameters a projection matrix is computed from. */
  datatype Lens = Lens(aspect: real, far: real, fov: real, near: real, zoom: real)

  /** A scene-graph entity; only its `camera` object3D slot is modelled. */
  class Entity {
    var cameraObject: Option<PerspectiveCamera>

    constructor ()
      ensures cameraObject == None
    {
      cameraObject := None;
    }
  }

  /** A request a camera component makes of the scene's camera system. */
  datatype SystemCall =
    | SetActiveCamera(el: Entity)
    | DisableActiveCamera
    | SetSpectatorCamera(el: Entity)
    | DisableSpectatorCamera
  {
    /** The request concerns the active role (as opposed to the spectator role). */
    predicate IsActiveRole()
    {
      SetActiveCamera? || DisableActiveCamera?
    }
  }

  /**
   * The scene's camera system, seen from the component: the two role slots it
   * consults and the requests it receives.  `issued` records every request in
   * the order it was made.  Setting a role stores the entity in its slot; what
   * a disable request does to the slots (which camera the system promotes
   * next) is the system's own business, so those methods promise nothing
   * about the slots.
   */
  class CameraSystem {
    var activeCameraEl: Option<Entity>
    var spectatorCameraEl: Option<Entity>
    var issued: seq<SystemCall>

    constructor ()
      ensures activeCameraEl == None && spectatorCameraEl == None && issued == []
    {
      activeCameraEl, spectatorCameraEl, issued := None, None, [];
    }

    method SetActiveCamera(el: Entity)
      modifies this`activeCameraEl, this`issued
      ensures activeCameraEl == Some(el)
      ensures issued == old(issued) + [SystemCall.SetActiveCamera(el)]
    {
      activeCameraEl := Some(el);
      issued := issued + [SystemCall.SetActiveCamera(el)];
    }

    method DisableActiveCamera()
      modifies this
      ensures issued == old(issued) + [SystemCall.DisableActiveCamera]
    {
      issued := issued + [SystemCall.DisableActiveCamera];
    }

    method SetSpectatorCamera(el: Entity)
      modifies this`spectatorCameraEl, this`issued
      ensures spectatorCameraEl == Some(el)
      ensures issued == old(issued) + [SystemCall.SetSpectatorCamera(el)]
    {
      spectatorCameraEl := Some(el);
      issued := issued + [SystemCall.SetSpectatorCamera(el)];
    }

    method DisableSpectatorCamera()
      modifies this
      ensures issued == old(issued) + [SystemCall.DisableSpectatorCamera]
    {
      issued := issued + [SystemCall.DisableSpectatorCamera];
    }
  }
}
