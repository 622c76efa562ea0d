/**
 * The `camera` component: its schema, the decisions it makes about the
 * active and spectator roles on every update, and the component object that
 * owns a projection camera and pushes its configuration into it.
 */
module Camera {
  import opened Host

  /** The component's configuration, already parsed and validated. */
  datatype CameraData = CameraData(
    active: bool,
    far: real,
    fov: real,
    near: real,
    spectator: bool,
    zoom: real)

  /** The schema's defaults. */
  const Defaults: CameraData := CameraData(true, 10000.0, 80.0, 0.005, false, 1.0)

  /** What the active-role handler asks of the camera system. */
  datatype ActiveAction = SetActive(el: Entity) | DisableActive | NoActiveCall
  {
    function Calls(): (r: seq<SystemCall>)
      ensures |r| <= 1
      ensures forall c <- r :: c.IsActiveRole()
      ensures r == [] <==> NoActiveCall?
    {
      match this
      case SetActive(e) => [SetActiveCamera(e)]
      case DisableActive => [DisableActiveCamera]
      case NoActiveCall => []
    }
  }

  /** What the spectator-role handler asks of the camera system. */
  datatype SpectatorAction = SetSpectator(el: Entity) | DisableSpectator | NoSpectatorCall
  {
    function Calls(): (r: seq<SystemCall>)
      ensures |r| <= 1
      ensures forall c <- r :: !c.IsActiveRole()
      ensures r == [] <==> NoSpectatorCall?
    {
      match this
      case SetSpectator(e) => [SetSpectatorCamera(e)]
      case DisableSpectator => [DisableSpectatorCamera]
      case NoSpectatorCall => []
    }
  }

  /**
   * The `updateActiveCamera` decision for entity `el`, given the new data,
   * the previous snapshot (None on the first update, where the framework
   * passes no prior values) and the system's active slot.
   */
  function ActiveDecision(data: CameraData, oldData: Option<CameraData>, el: Entity,
                          activeCameraEl: Option<Entity>): (r: ActiveAction)
    // A spectator configuration never touches the active role.
    ensures data.spectator ==> r == NoActiveCall
    // With a snapshot whose `active` equals the new one, nothing is asked.
    ensures oldData.Some? && oldData.value.active == data.active ==> r == NoActiveCall
    // Claims are only for this entity, and never for a slot it already holds.
    ensures r.SetActive? ==> r.el == el && data.active && activeCameraEl != Some(el)
    // Only the current holder gives up the role.
    ensures r.DisableActive? ==> !data.active && activeCameraEl == Some(el)
    // Whenever the handler is not skipped, both requests are made when due.
    ensures !data.spectator && (oldData.None? || oldData.value.active != data.active) ==>
              (data.active && activeCameraEl != Some(el) ==> r == SetActive(el)) &&
              (!data.active && activeCameraEl == Some(el) ==> r == DisableActive)
  {
    if (oldData.Some? && oldData.value.active == data.active) || data.spectator then
      NoActiveCall
    else if data.active && activeCameraEl != Some(el) then
      SetActive(el)
    else if !data.active && activeCameraEl == Some(el) then
      DisableActive
    else
      NoActiveCall
  }

  /** The `updateSpectatorCamera` decision, analogous to ActiveDecision. */
  function SpectatorDecision(data: CameraData, oldData: Option<CameraData>, el: Entity,
                             spectatorCameraEl: Option<Entity>): (r: SpectatorAction)
    // Skipped exactly when a snapshot exists with an equal `spectator`.
    ensures oldData.Some? && oldData.value.spectator == data.spectator ==> r == NoSpectatorCall
    ensures r.SetSpectator? ==> r.el == el && data.spectator && spectatorCameraEl != Some(el)
    ensures r.DisableSpectator? ==> !data.spectator && spectatorCameraEl == Some(el)
    ensures (oldData.None? || oldData.value.spectator != data.spectator) ==>
              (data.spectator && spectatorCameraEl != Some(el) ==> r == SetSpectator(el)) &&
              (!data.spectator && spectatorCameraEl == Some(el) ==> r == DisableSpectator)
  {
    if oldData.Some? && oldData.value.spectator == data.spectator then
      NoSpectatorCall
    else if data.spectator && spectatorCameraEl != Some(el) then
      SetSpectator(el)
    else if !data.spectator && spectatorCameraEl == Some(el) then
      DisableSpectator
    else
      NoSpectatorCall
  }

  /**
   * The role slots one update observes: the active slot as the active handler
   * reads it and the spectator slot as the spectator handler reads it, after
   * the active handler's request has been served.
   */
  datatype Slots = Slots(active: Option<Entity>, spectator: Option<Entity>)

  /** The requests one `update` of entity `el` makes, in the order made. */
  function UpdateCalls(el: Entity, data: CameraData, oldData: Option<CameraData>,
                       seen: Slots): (r: seq<SystemCall>)
    // At most one request per role: any earlier request is about the active
    // role, any later one about the spectator role.
    ensures |r| <= 2
    ensures forall i, j :: 0 <= i < j < |r| ==> r[i].IsActiveRole() && !r[j].IsActiveRole()
    ensures data.spectator ==> forall c <- r :: !c.IsActiveRole()
  {
    ActiveDecision(data, oldData, el, seen.active).Calls()
      + SpectatorDecision(data, oldData, el, seen.spectator).Calls()
  }

  /**
   * A camera left at the schema defaults claims the active role on its first
   * update, unless it already holds it, and makes no spectator request unless
   * it holds the spectator slot.
   */
  lemma DefaultsClaimActive(el: Entity, activeCameraEl: Option<Entity>, spectatorCameraEl: Option<Entity>)
    requires activeCameraEl != Some(el) && spectatorCameraEl != Some(el)
    ensures UpdateCalls(el, Defaults, None, Slots(activeCameraEl, spectatorCameraEl))
              == [SetActiveCamera(el)]
  {
  }

  /** One `camera` component instance attached to entity `el`. */
  class CameraComponent {
    const el: Entity
    const system: CameraSystem
    var data: CameraData
    /** Decided once when the component is initialised. */
    const embedded: bool
    var camera: PerspectiveCamera

    /**
     * `init`: decides whether the scene is embedded (the `embedded` attribute
     * is set and the scene is not in VR mode), creates the projection camera
     * and attaches it to the entity.  No role is requested here.
     */
    constructor Init(el: Entity, system: CameraSystem, data: CameraData,
                     embeddedAttribute: bool, vrMode: bool)
      modifies el
      ensures this.el == el && this.system == system && this.data == data
      ensures embedded == (embeddedAttribute && !vrMode)
      ensures fresh(camera) && camera.InSync()
      ensures el.cameraObject == Some(camera)
    {
      this.el := el;
      this.system := system;
      this.data := data;
      embedded := embeddedAttribute && !vrMode;
      camera := new PerspectiveCamera();
      new;
      el.cameraObject := Some(camera);
    }

    /**
     * `update`: pushes the configuration into the camera, takes the aspect
     * from the embedding element or from the window depending on `embedded`,
     * recomputes the projection, then runs the active handler followed by the
     * spectator handler.  The two ratios are the DOM's, taken as inputs.
     * `spectatorSeen` is the spectator slot the spectator handler read.
     */
    method Update(oldData: Option<CameraData>, embeddedAR: real, windowAR: real)
      returns (ghost spectatorSeen: Option<Entity>)
      modifies camera, system
      ensures camera == old(camera) && data == old(data)
      ensures camera.aspect == (if embedded then embeddedAR else windowAR)
      ensures camera.far == data.far && camera.fov == data.fov
      ensures camera.near == data.near && camera.zoom == data.zoom
      ensures camera.InSync()
      ensures system.issued == old(system.issued)
                + UpdateCalls(el, data, oldData, Slots(old(system.activeCameraEl), spectatorSeen))
      ensures !ActiveDecision(data, oldData, el, old(system.activeCameraEl)).DisableActive? ==>
                spectatorSeen == old(system.spectatorCameraEl)
      // The new slots, as far as the requests made determine them.
      ensures UpdateCalls(el, data, oldData, Slots(old(system.activeCameraEl), spectatorSeen)) == [] ==>
                unchanged(system)
      ensures !ActiveDecision(data, oldData, el, old(system.activeCameraEl)).DisableActive? &&
              !SpectatorDecision(data, oldData, el, spectatorSeen).DisableSpectator? ==>
                system.activeCameraEl ==
                  (if ActiveDecision(data, oldData, el, old(system.activeCameraEl)).SetActive? then Some(el)
                   else old(system.activeCameraEl))
      ensures !SpectatorDecision(data, oldData, el, spectatorSeen).DisableSpectator? ==>
                system.spectatorCameraEl ==
                  (if SpectatorDecision(data, oldData, el, spectatorSeen).SetSpectator? then Some(el)
                   else spectatorSeen)
    {
      camera.aspect := if embedded then embeddedAR else windowAR;
      camera.far := data.far;
      camera.fov := data.fov;
      camera.near := data.near;
      camera.zoom := data.zoom;
      camera.UpdateProjectionMatrix();

      UpdateActiveCamera(oldData);
      spectatorSeen := system.spectatorCameraEl;
      UpdateSpectatorCamera(oldData);
    }

    /** `updateActiveCamera`: issues ActiveDecision's request, if any. */
    method UpdateActiveCamera(oldData: Option<CameraData>)
      modifies system
      ensures system.issued == old(system.issued)
                + ActiveDecision(data, oldData, el, old(system.activeCameraEl)).Calls()
      ensures ActiveDecision(data, oldData, el, old(system.activeCameraEl)) == NoActiveCall ==>
                unchanged(system)
      ensures !ActiveDecision(data, oldData, el, old(system.activeCameraEl)).DisableActive? ==>
                system.spectatorCameraEl == old(system.spectatorCameraEl)
      // After a handled claim this entity holds the active slot, set now or before.
      ensures !data.spectator && data.active && (oldData.None? || oldData.value.active != data.active) ==>
                system.activeCameraEl == Some(el)
    {
      var action := ActiveDecision(data, oldData, el, system.activeCameraEl);
      match action
      case SetActive(e) => system.SetActiveCamera(e);
      case DisableActive => system.DisableActiveCamera();
      case NoActiveCall =>
    }

    /** `updateSpectatorCamera`: issues SpectatorDecision's request, if any. */
    method UpdateSpectatorCamera(oldData: Option<CameraData>)
      modifies system
      ensures system.issued == old(system.issued)
                + SpectatorDecision(data, oldData, el, old(system.spectatorCameraEl)).Calls()
      ensures SpectatorDecision(data, oldData, el, old(system.spectatorCameraEl)) == NoSpectatorCall ==>
                unchanged(system)
      ensures !SpectatorDecision(data, oldData, el, old(system.spectatorCameraEl)).DisableSpectator? ==>
                system.activeCameraEl == old(system.activeCameraEl)
      ensures data.spectator && (oldData.None? || oldData.value.spectator != data.spectator) ==>
                system.spectatorCameraEl == Some(el)
    {
      var action := SpectatorDecision(data, oldData, el, system.spectatorCameraEl);
      match action
      case SetSpectator(e) => system.SetSpectatorCamera(e);
      case DisableSpectator => system.DisableSpectatorCamera();
      case NoSpectatorCall =>
    }

    /**
     * `remove`: detaches the projection camera from the entity.  The camera
     * system's slots are left as they are, even when they name this entity.
     */
    method Remove()
      modifies el
      ensures el.cameraObject == None
      ensures unchanged(system)
    {
      el.cameraObject := None;
    }
  }
}
