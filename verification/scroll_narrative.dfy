/** The camera rig of the story: five scroll phases, each a lerp of the
    camera position between fixed key points, with a look-at target in four
    of them, and a slight turn of the whole scene with progress. */
module ScrollNarrative {
  import opened Wrappers
  import opened Numerics

  datatype Point = Point(x: real, y: real, z: real)

  /** Where the canvas places the camera before the first frame. */
  const InitialCamera: Point := Point(0.0, 2.0, 5.0)

  /** The camera's x: -2 to 0 over [0, 0.2], 0 to 1 up to 0.5, 1 to 2 up to
      0.7, 2 to 3 up to 0.9 and 3 to 4 up to 1. */
  function CameraX(p: real): real
  {
    if p <= 0.2 then Lerp(-2.0, 0.0, p / 0.2)
    else if p <= 0.5 then Lerp(0.0, 1.0, (p - 0.2) / 0.3)
    else if p <= 0.7 then Lerp(1.0, 2.0, (p - 0.5) / 0.2)
    else if p <= 0.9 then Lerp(2.0, 3.0, (p - 0.7) / 0.2)
    else Lerp(3.0, 4.0, (p - 0.9) / 0.1)
  }

  /** The camera's z: 8 to 6, 6 to 4, 4 to 3, 3 to 2 and 2 to 1 over the same phases. */
  function CameraZ(p: real): real
  {
    if p <= 0.2 then Lerp(8.0, 6.0, p / 0.2)
    else if p <= 0.5 then Lerp(6.0, 4.0, (p - 0.2) / 0.3)
    else if p <= 0.7 then Lerp(4.0, 3.0, (p - 0.5) / 0.2)
    else if p <= 0.9 then Lerp(3.0, 2.0, (p - 0.7) / 0.2)
    else Lerp(2.0, 1.0, (p - 0.9) / 0.1)
  }

  /** The camera's height: written only in phases 2, 4 and 5 (2 to 1.5,
      1.5 to 1.8, 1.8 to 2.2); phases 1 and 3 keep the previous height. */
  function CameraY(p: real, previous: real): real
  {
    if p <= 0.2 then previous
    else if p <= 0.5 then Lerp(2.0, 1.5, (p - 0.2) / 0.3)
    else if p <= 0.7 then previous
    else if p <= 0.9 then Lerp(1.5, 1.8, (p - 0.7) / 0.2)
    else Lerp(1.8, 2.2, (p - 0.9) / 0.1)
  }

  /** The point the camera is turned towards, or None in phase 2, which
      leaves the orientation as it was. */
  function LookTarget(p: real): Option<Point>
  {
    if p <= 0.2 then Some(Point(0.0, 1.0, 0.0))
    else if p <= 0.5 then None
    else if p <= 0.7 then Some(Point(Lerp(0.0, 3.0, (p - 0.5) / 0.2), 1.0, Lerp(0.0, -2.0, (p - 0.5) / 0.2)))
    else if p <= 0.9 then Some(Point(3.0, 1.0, -2.0))
    else Some(Point(Lerp(3.0, 2.0, (p - 0.9) / 0.1), 1.0, Lerp(-2.0, -1.0, (p - 0.9) / 0.1)))
  }

  /** The camera glides: scrolling forward only moves it right, and never
      faster than 10 units per unit of progress, so its x has no jump at
      any phase boundary. */
  lemma CameraXGlides(p1: real, p2: real)
    requires p1 <= p2
    ensures CameraX(p1) <= CameraX(p2)
    ensures CameraX(p2) - CameraX(p1) <= 10.0 * (p2 - p1)
  {
  }

  /** Scrolling forward only brings the camera closer (smaller z), never
      faster than 10 units per unit of progress. */
  lemma CameraZGlides(p1: real, p2: real)
    requires p1 <= p2
    ensures CameraZ(p2) <= CameraZ(p1)
    ensures CameraZ(p1) - CameraZ(p2) <= 10.0 * (p2 - p1)
  {
  }

  /** The key points of the path: it starts at (x, z) = (-2, 8), passes
      (0, 6), (1, 4), (2, 3) and (3, 2) at the phase boundaries and ends at
      (4, 1). */
  lemma CameraXKeyPoints()
    ensures CameraX(0.0) == -2.0 && CameraX(0.2) == 0.0 && CameraX(0.5) == 1.0
    ensures CameraX(0.7) == 2.0 && CameraX(0.9) == 3.0 && CameraX(1.0) == 4.0
  {
  }

  lemma CameraZKeyPoints()
    ensures CameraZ(0.0) == 8.0 && CameraZ(0.2) == 6.0 && CameraZ(0.5) == 4.0
    ensures CameraZ(0.7) == 3.0 && CameraZ(0.9) == 2.0 && CameraZ(1.0) == 1.0
  {
  }

  /** Starting from the canvas height 2, or any height in [1.5, 2.2], the
      camera's height never leaves [1.5, 2.2] while the scroll stays in
      range. */
  lemma CameraYBand(p: real, previous: real)
    requires p <= 1.0 && 1.5 <= previous <= 2.2
    ensures 1.5 <= CameraY(p, previous) <= 2.2
  {
  }

  /** The written heights meet where the phases hand over: phase 2 starts at
      the canvas height and ends at 1.5, where phase 4 starts; phase 4 ends
      at 1.8, where phase 5 starts. */
  lemma CameraYHandOver()
    ensures CameraY(0.2, InitialCamera.y) == InitialCamera.y
    ensures Lerp(2.0, 1.5, 0.0) == InitialCamera.y
    ensures CameraY(0.5, 0.0) == 1.5 == Lerp(1.5, 1.8, 0.0)
    ensures CameraY(0.9, 0.0) == 1.8 == Lerp(1.8, 2.2, 0.0)
  {
  }

  /** Where the look-at target is written it moves continuously: the turn of
      phase 3 starts at phase 1's target (0, 1, 0) and ends at the meeting
      point (3, 1, -2) that phase 4 holds and phase 5 starts from. */
  lemma LookTargetContinuous(p1: real, p2: real)
    requires 0.5 < p1 <= p2 <= 1.0
    ensures LookTarget(p1).Some? && LookTarget(p2).Some?
    ensures Abs(LookTarget(p2).value.x - LookTarget(p1).value.x) <= 15.0 * (p2 - p1)
    ensures Abs(LookTarget(p2).value.z - LookTarget(p1).value.z) <= 10.0 * (p2 - p1)
    ensures LookTarget(p1).value.y == 1.0
  {
  }

  /** Phase 3 resumes the turn from phase 1's target, without a jump. */
  lemma LookTargetResumes(p: real)
    requires 0.5 < p <= 0.7
    ensures LookTarget(0.2) == Some(Point(0.0, 1.0, 0.0))
    ensures Abs(LookTarget(p).value.x - 0.0) <= 15.0 * (p - 0.5)
    ensures Abs(LookTarget(p).value.z - 0.0) <= 10.0 * (p - 0.5)
  {
  }

  /** The look-at target always lies on the height-1 plane, between the
      origin and the meeting point: x in [0, 3], z in [-2, 0]. */
  lemma LookTargetBounds(p: real)
    requires p <= 1.0
    ensures LookTarget(p).Some? ==>
      LookTarget(p).value.y == 1.0 &&
      0.0 <= LookTarget(p).value.x <= 3.0 && -2.0 <= LookTarget(p).value.z <= 0.0
  {
  }

  /** The camera and the scene group, as the `useFrame` callback writes them. */
  class Rig {
    var camera: Point
    var lookTarget: Point
    var groupRotationY: real

    /** Mounting: the canvas camera, looking at the origin, the group unturned. */
    constructor ()
      ensures camera == InitialCamera && lookTarget == Point(0.0, 0.0, 0.0) && groupRotationY == 0.0
    {
      camera := InitialCamera;
      lookTarget := Point(0.0, 0.0, 0.0);
      groupRotationY := 0.0;
    }

    /** One frame at scroll offset `p`; nothing happens while the group is
        unmounted. The camera moves to the phase's key-point lerp, the target
        is replaced wherever the phase looks somewhere, and the group turns
        by a tenth of the progress. */
    method Step(groupMounted: bool, p: real)
      modifies this
      ensures !groupMounted ==>
        camera == old(camera) && lookTarget == old(lookTarget) && groupRotationY == old(groupRotationY)
      ensures groupMounted ==>
        camera == Point(CameraX(p), CameraY(p, old(camera.y)), CameraZ(p)) &&
        lookTarget == (if LookTarget(p).Some? then LookTarget(p).value else old(lookTarget)) &&
        groupRotationY == p * 0.1
    {
      if !groupMounted {
        return;
      }
      if p <= 0.2 {
        var phase1 := p / 0.2;
        camera := camera.(x := Lerp(-2.0, 0.0, phase1), z := Lerp(8.0, 6.0, phase1));
        lookTarget := Point(0.0, 1.0, 0.0);
      } else if p <= 0.5 {
        var phase2 := (p - 0.2) / 0.3;
        camera := Point(Lerp(0.0, 1.0, phase2), Lerp(2.0, 1.5, phase2), Lerp(6.0, 4.0, phase2));
      } else if p <= 0.7 {
        var phase3 := (p - 0.5) / 0.2;
        camera := camera.(x := Lerp(1.0, 2.0, phase3), z := Lerp(4.0, 3.0, phase3));
        lookTarget := Point(Lerp(0.0, 3.0, phase3), 1.0, Lerp(0.0, -2.0, phase3));
      } else if p <= 0.9 {
        var phase4 := (p - 0.7) / 0.2;
        camera := Point(Lerp(2.0, 3.0, phase4), Lerp(1.5, 1.8, phase4), Lerp(3.0, 2.0, phase4));
        lookTarget := Point(3.0, 1.0, -2.0);
      } else {
        var phase5 := (p - 0.9) / 0.1;
        camera := Point(Lerp(3.0, 4.0, phase5), Lerp(1.8, 2.2, phase5), Lerp(2.0, 1.0, phase5));
        lookTarget := Point(Lerp(3.0, 2.0, phase5), 1.0, Lerp(-2.0, -1.0, phase5));
      }
      groupRotationY := p * 0.1;
    }
  }
}
