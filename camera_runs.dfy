/**
 * Properties of a run of successive updates of one camera component: each
 * update's previous snapshot is the data of the update before it, and the
 * role slots each update observes are arbitrary, since other entities and
 * the camera system may change them between updates.
 */
module CameraRuns {
  import opened Host
  import opened Camera

  /**
   * The requests `el` makes over the updates `configs`, where `prev` is the
   * snapshot before the first of them (None when the first is the
   * component's first update) and `seen[i]` the slots update i observes.
   */
  function Run(el: Entity, prev: Option<CameraData>, configs: seq<CameraData>,
               seen: seq<Slots>): seq<SystemCall>
    requires |seen| == |configs|
    decreases |configs|
  {
    if configs == [] then []
    else UpdateCalls(el, configs[0], prev, seen[0]) + Run(el, Some(configs[0]), configs[1..], seen[1..])
  }

  function ActiveRoleCount(calls: seq<SystemCall>): nat
  {
    if calls == [] then 0
    else (if calls[0].IsActiveRole() then 1 else 0) + ActiveRoleCount(calls[1..])
  }

  function SpectatorRoleCount(calls: seq<SystemCall>): nat
  {
    if calls == [] then 0
    else (if calls[0].IsActiveRole() then 0 else 1) + SpectatorRoleCount(calls[1..])
  }

  /** The number of updates whose active handler is not skipped. */
  function ActiveEvaluations(prev: Option<CameraData>, configs: seq<CameraData>): nat
    decreases |configs|
  {
    if configs == [] then 0
    else
      var d := configs[0];
      (if !d.spectator && (prev.None? || prev.value.active != d.active) then 1 else 0)
        + ActiveEvaluations(Some(d), configs[1..])
  }

  /** The number of updates whose spectator handler is not skipped. */
  function SpectatorEvaluations(prev: Option<CameraData>, configs: seq<CameraData>): nat
    decreases |configs|
  {
    if configs == [] then 0
    else
      var d := configs[0];
      (if prev.None? || prev.value.spectator != d.spectator then 1 else 0)
        + SpectatorEvaluations(Some(d), configs[1..])
  }

  lemma {:induction false} CountsAppend(a: seq<SystemCall>, b: seq<SystemCall>)
    ensures ActiveRoleCount(a + b) == ActiveRoleCount(a) + ActiveRoleCount(b)
    ensures SpectatorRoleCount(a + b) == SpectatorRoleCount(a) + SpectatorRoleCount(b)
  {
    if a == [] {
      assert a + b == b;
    } else {
      assert (a + b)[0] == a[0] && (a + b)[1..] == a[1..] + b;
      CountsAppend(a[1..], b);
    }
  }

  /** One update makes at most one request per role, the active one only when evaluated. */
  lemma UpdateCounts(el: Entity, data: CameraData, oldData: Option<CameraData>, seen: Slots)
    ensures ActiveRoleCount(UpdateCalls(el, data, oldData, seen))
              <= (if !data.spectator && (oldData.None? || oldData.value.active != data.active) then 1 else 0)
    ensures SpectatorRoleCount(UpdateCalls(el, data, oldData, seen))
              <= (if oldData.None? || oldData.value.spectator != data.spectator then 1 else 0)
  {
    var a := ActiveDecision(data, oldData, el, seen.active).Calls();
    var s := SpectatorDecision(data, oldData, el, seen.spectator).Calls();
    CountsAppend(a, s);
    if a != [] { assert a[1..] == []; }
    if s != [] { assert s[1..] == []; }
  }

  /** Each update of a run makes at most two requests. */
  lemma {:induction false} RunLength(el: Entity, prev: Option<CameraData>, configs: seq<CameraData>,
                                      seen: seq<Slots>)
    requires |seen| == |configs|
    ensures |Run(el, prev, configs, seen)| <= 2 * |configs|
    decreases |configs|
  {
    if configs != [] {
      RunLength(el, Some(configs[0]), configs[1..], seen[1..]);
    }
  }

  /**
   * Active-role requests happen only in updates where `active` changed (or
   * the first update) and `spectator` is false: at most one per such update.
   */
  lemma {:induction false} ActiveRequestsOnlyOnChange(el: Entity, prev: Option<CameraData>,
                                                       configs: seq<CameraData>, seen: seq<Slots>)
    requires |seen| == |configs|
    ensures ActiveRoleCount(Run(el, prev, configs, seen)) <= ActiveEvaluations(prev, configs)
    decreases |configs|
  {
    if configs != [] {
      var head := UpdateCalls(el, configs[0], prev, seen[0]);
      var tail := Run(el, Some(configs[0]), configs[1..], seen[1..]);
      CountsAppend(head, tail);
      UpdateCounts(el, configs[0], prev, seen[0]);
      ActiveRequestsOnlyOnChange(el, Some(configs[0]), configs[1..], seen[1..]);
    }
  }

  /** Spectator-role requests happen only in updates where `spectator` changed (or the first). */
  lemma {:induction false} SpectatorRequestsOnlyOnChange(el: Entity, prev: Option<CameraData>,
                                                          configs: seq<CameraData>, seen: seq<Slots>)
    requires |seen| == |configs|
    ensures SpectatorRoleCount(Run(el, prev, configs, seen)) <= SpectatorEvaluations(prev, configs)
    decreases |configs|
  {
    if configs != [] {
      var head := UpdateCalls(el, configs[0], prev, seen[0]);
      var tail := Run(el, Some(configs[0]), configs[1..], seen[1..]);
      CountsAppend(head, tail);
      UpdateCounts(el, configs[0], prev, seen[0]);
      SpectatorRequestsOnlyOnChange(el, Some(configs[0]), configs[1..], seen[1..]);
    }
  }

  /**
   * A component whose `active` and `spectator` never change from the snapshot
   * it starts with makes no request at all, whatever happens to the slots in
   * the meantime: in particular a camera demoted by another one does not
   * reclaim the role.
   */
  lemma {:induction false} SteadyRunIssuesNothing(el: Entity, prev: Option<CameraData>,
                                                   configs: seq<CameraData>, seen: seq<Slots>)
    requires |seen| == |configs| && prev.Some?
    requires forall i :: 0 <= i < |configs| ==>
               configs[i].active == prev.value.active && configs[i].spectator == prev.value.spectator
    ensures Run(el, prev, configs, seen) == []
    decreases |configs|
  {
    if configs != [] {
      SteadyRunIssuesNothing(el, Some(configs[0]), configs[1..], seen[1..]);
    }
  }

  /** While `spectator` stays true, the active role is never requested or released. */
  lemma {:induction false} SpectatorRunLeavesActiveRole(el: Entity, prev: Option<CameraData>,
                                                         configs: seq<CameraData>, seen: seq<Slots>)
    requires |seen| == |configs|
    requires forall i :: 0 <= i < |configs| ==> configs[i].spectator
    ensures forall c <- Run(el, prev, configs, seen) :: !c.IsActiveRole()
    decreases |configs|
  {
    if configs != [] {
      SpectatorRunLeavesActiveRole(el, Some(configs[0]), configs[1..], seen[1..]);
    }
  }

  /**
   * A camera claims the active role on its first update; once another camera
   * has taken the slot, an update with unchanged data does not claim it back.
   */
  lemma DemotedCameraDoesNotReclaim(el: Entity, other: Entity, d: CameraData)
    requires d.active && !d.spectator && other != el
    ensures Run(el, None, [d, d], [Slots(None, None), Slots(Some(other), None)])
              == [SetActiveCamera(el)]
  {
    var s1 := [Slots(Some(other), None)];
    assert [d, d][1..] == [d] && [Slots(None, None), Slots(Some(other), None)][1..] == s1;
    assert UpdateCalls(el, d, None, Slots(None, None)) == [SetActiveCamera(el)];
    assert Run(el, Some(d), [d], s1) == UpdateCalls(el, d, Some(d), s1[0]) + Run(el, Some(d), [], []);
  }
}
