/**
 * Retargeting of pose keypoints onto a skeleton: a fixed table from
 * landmark index to joint, smoothed position updates toward the projected
 * keypoints, smoothed rotations of the eight limb bones, and the
 * single-instance rule of the animator.
 */
module Animation {
  import opened Wrappers

  datatype Vec2 = Vec2(x: real, y: real)
  datatype Vec3 = Vec3(x: real, y: real, z: real)
  datatype Quat = Quat(x: real, y: real, z: real, w: real)

  function Sub(a: Vec3, b: Vec3): Vec3 {
    Vec3(a.x - b.x, a.y - b.y, a.z - b.z)
  }

  function Scale(v: Vec3, k: real): Vec3 {
    Vec3(v.x * k, v.y * k, v.z * k)
  }

  /** The squared Euclidean length of a vector, over the reals. */
  function SqrLength(v: Vec3): real {
    v.x * v.x + v.y * v.y + v.z * v.z
  }

  /**
   * The engine services the retargeter calls but whose internals are not
   * modelled: screen size, `Camera.ScreenToWorldPoint`, `Vector3.normalized`,
   * the single-precision `Vector3.sqrMagnitude` of a direction,
   * `Quaternion.LookRotation` and `Quaternion.Slerp` (which receives its
   * interpolation factor already clamped to [0, 1], as Unity clamps it).
   */
  datatype Engine = Engine(
    screenWidth: nat,
    screenHeight: nat,
    screenToWorld: Vec3 -> Vec3,
    normalized: Vec3 -> Vec3,
    sqrMagnitude: Vec3 -> real,
    lookRotation: Vec3 -> Quat,
    slerp: (Quat, Quat, real) -> Quat)

  /** The smoothing rate: both updates interpolate by `Time.deltaTime * 10`. */
  const SmoothingRate: real := 10.0

  /** `Mathf.Clamp01`, which `Vector3.Lerp` and `Quaternion.Slerp` apply to their factor. */
  function Clamp01(t: real): (r: real)
    ensures 0.0 <= r <= 1.0
    ensures 0.0 <= t <= 1.0 ==> r == t
    ensures t < 0.0 ==> r == 0.0
    ensures t > 1.0 ==> r == 1.0
  {
    if t < 0.0 then 0.0 else if t > 1.0 then 1.0 else t
  }

  lemma SqrLengthScale(v: Vec3, k: real)
    ensures SqrLength(Scale(v, k)) == k * k * SqrLength(v)
  {
    calc {
      SqrLength(Scale(v, k));
      (v.x * k) * (v.x * k) + (v.y * k) * (v.y * k) + (v.z * k) * (v.z * k);
      k * k * (v.x * v.x) + k * k * (v.y * v.y) + k * k * (v.z * v.z);
      k * k * SqrLength(v);
    }
  }

  /** `Vector3.Lerp`: the point a clamped fraction `t` of the way from `a` to `b`. */
  function Lerp(a: Vec3, b: Vec3, t: real): (r: Vec3)
    ensures t <= 0.0 ==> r == a
    ensures t >= 1.0 ==> r == b
  {
    var c := Clamp01(t);
    Vec3(a.x + (b.x - a.x) * c, a.y + (b.y - a.y) * c, a.z + (b.z - a.z) * c)
  }

  /**
   * The interpolated point lies on the segment from `a` to `b`, so it is
   * never farther from `b` than `a` was: a step never overshoots its target,
   * whatever the frame time.
   */
  lemma LerpApproaches(a: Vec3, b: Vec3, t: real)
    ensures Sub(b, Lerp(a, b, t)) == Scale(Sub(b, a), 1.0 - Clamp01(t))
    ensures SqrLength(Sub(b, Lerp(a, b, t))) <= SqrLength(Sub(b, a))
  {
    var k := 1.0 - Clamp01(t);
    assert Sub(b, Lerp(a, b, t)) == Scale(Sub(b, a), k);
    SqrLengthScale(Sub(b, a), k);
    assert 0.0 <= k * k <= 1.0;
    assert SqrLength(Sub(b, a)) >= 0.0;
  }

  /**
   * The screen point of `Convert2DTo3D`: x scaled by the screen width, y
   * flipped (keypoint y grows downward, screen y upward) and scaled by the
   * height, depth passed through. On a non-empty screen the keypoint can be
   * read back from the screen point, and keypoints in the unit square land
   * on the screen.
   */
  function ScreenPoint(keypoint: Vec2, depth: real, width: nat, height: nat): (r: Vec3)
    ensures r.z == depth
    ensures width > 0 ==> r.x / (width as real) == keypoint.x
    ensures height > 0 ==> 1.0 - r.y / (height as real) == keypoint.y
    ensures 0.0 <= keypoint.x <= 1.0 ==> 0.0 <= r.x <= width as real
    ensures 0.0 <= keypoint.y <= 1.0 ==> 0.0 <= r.y <= height as real
  {
    var w := width as real;
    var h := height as real;
    var flipped := 1.0 - keypoint.y;
    var r := Vec3(keypoint.x * w, flipped * h, depth);
    assert width > 0 ==> r.x / w == keypoint.x;
    assert height > 0 ==> r.y / h == flipped;
    assert 0.0 <= keypoint.x <= 1.0 ==> keypoint.x * w <= w;
    assert 0.0 <= keypoint.y <= 1.0 ==> (1.0 - keypoint.y) * h <= h;
    r
  }

  /** `Convert2DTo3D`: the screen point unprojected by the camera. */
  function Convert2DTo3D(keypoint: Vec2, depth: real, env: Engine): Vec3 {
    env.screenToWorld(ScreenPoint(keypoint, depth, env.screenWidth, env.screenHeight))
  }

  /** The thirteen joints the animator drives. */
  datatype Joint =
    | Head
    | LeftShoulder | RightShoulder
    | LeftElbow | RightElbow
    | LeftHand | RightHand
    | LeftHip | RightHip
    | LeftKnee | RightKnee
    | LeftFoot | RightFoot

  /** `keypointMapping`: MoveNet landmark index to joint. */
  const KeypointMapping: map<int, Joint> := map[
    0 := Head,
    5 := LeftShoulder, 6 := RightShoulder,
    7 := LeftElbow, 8 := RightElbow,
    9 := LeftHand, 10 := RightHand,
    11 := LeftHip, 12 := RightHip,
    13 := LeftKnee, 14 := RightKnee,
    15 := LeftFoot, 16 := RightFoot]

  /** The landmark index that drives a joint: the inverse of `KeypointMapping`. */
  function JointIndex(j: Joint): (i: nat)
    ensures i == 0 || 5 <= i <= 16
  {
    match j
    case Head => 0
    case LeftShoulder => 5
    case RightShoulder => 6
    case LeftElbow => 7
    case RightElbow => 8
    case LeftHand => 9
    case RightHand => 10
    case LeftHip => 11
    case RightHip => 12
    case LeftKnee => 13
    case RightKnee => 14
    case LeftFoot => 15
    case RightFoot => 16
  }

  /**
   * The mapping is defined on exactly the landmarks 0 and 5 to 16 (the
   * face landmarks 1 to 4 are ignored), it is injective, and every joint
   * is driven by exactly one landmark.
   */
  lemma KeypointMappingShape()
    ensures forall i :: i in KeypointMapping <==> i == 0 || 5 <= i <= 16
    ensures forall i :: 1 <= i <= 4 ==> i !in KeypointMapping
    ensures forall i :: i in KeypointMapping ==> JointIndex(KeypointMapping[i]) == i
    ensures forall i, i' :: i in KeypointMapping && i' in KeypointMapping && i != i' ==>
      KeypointMapping[i] != KeypointMapping[i']
    ensures forall j: Joint :: KeypointMapping[JointIndex(j)] == j
  {
    forall i | i in KeypointMapping ensures JointIndex(KeypointMapping[i]) == i {
    }
  }

  /** Landmark `i` drives joint `j` exactly when `j`'s landmark index is `i`. */
  lemma MappingInverse(i: int)
    ensures forall j :: JointIndex(j) == i <==> i in KeypointMapping && KeypointMapping[i] == j
  {
  }

  /** A joint's transform: its world position and rotation. */
  datatype Bone = Bone(position: Vec3, rotation: Quat)

  /**
   * The skeleton: the bones of the joints whose transform is assigned. A
   * joint whose transform field is null has no entry.
   */
  type Skeleton = map<Joint, Bone>

  /** A bone moved a clamped `dt * 10` of the way toward the projection of its keypoint. */
  function Moved(bone: Bone, keypoint: Vec2, depth: real, dt: real, env: Engine): Bone {
    bone.(position := Lerp(bone.position, Convert2DTo3D(keypoint, depth, env), dt * SmoothingRate))
  }

  /**
   * What `UpdatePose` does to the skeleton: each assigned joint whose
   * landmark index lies within the keypoints moves a clamped `dt * 10` of
   * the way toward its keypoint's projection, and nothing else changes.
   */
  function PoseStep(b: Skeleton, keypoints: seq<Vec2>, depth: real, dt: real, env: Engine): (r: Skeleton)
    ensures r.Keys == b.Keys
    ensures forall j :: j in b ==> r[j].rotation == b[j].rotation
    ensures forall j :: j in b && JointIndex(j) >= |keypoints| ==> r[j] == b[j]
    ensures forall j :: j in b && JointIndex(j) < |keypoints| ==>
      r[j].position == Lerp(b[j].position, Convert2DTo3D(keypoints[JointIndex(j)], depth, env), dt * SmoothingRate)
  {
    map j | j in b ::
      if JointIndex(j) < |keypoints| then Moved(b[j], keypoints[JointIndex(j)], depth, dt, env) else b[j]
  }

  /** The skeleton after the first `n` iterations of `UpdatePose`'s loop: joints driven by landmarks below `n` have moved. */
  ghost function PosedUpTo(b: Skeleton, keypoints: seq<Vec2>, n: nat, depth: real, dt: real, env: Engine): (r: Skeleton)
    requires n <= |keypoints|
    ensures n == |keypoints| ==> r == PoseStep(b, keypoints, depth, dt, env)
  {
    map j | j in b :: if JointIndex(j) < n then Moved(b[j], keypoints[JointIndex(j)], depth, dt, env) else b[j]
  }

  /** Iteration `i` of `UpdatePose`'s loop moves the joint landmark `i` drives, if it is mapped and assigned. */
  lemma PosedUpToNext(b: Skeleton, keypoints: seq<Vec2>, i: nat, depth: real, dt: real, env: Engine)
    requires i < |keypoints|
    ensures var x := PosedUpTo(b, keypoints, i, depth, dt, env);
      PosedUpTo(b, keypoints, i + 1, depth, dt, env)
        == if i in KeypointMapping && KeypointMapping[i] in b
           then x[KeypointMapping[i] := Moved(x[KeypointMapping[i]], keypoints[i], depth, dt, env)]
           else x
  {
    MappingInverse(i);
  }

  /**
   * Every joint `UpdatePose` moves ends no farther from its projected
   * keypoint than it started.
   */
  lemma PoseStepApproaches(b: Skeleton, keypoints: seq<Vec2>, depth: real, dt: real, env: Engine, j: Joint)
    requires j in b && JointIndex(j) < |keypoints|
    ensures var target := Convert2DTo3D(keypoints[JointIndex(j)], depth, env);
      SqrLength(Sub(target, PoseStep(b, keypoints, depth, dt, env)[j].position))
        <= SqrLength(Sub(target, b[j].position))
  {
    LerpApproaches(b[j].position, Convert2DTo3D(keypoints[JointIndex(j)], depth, env), dt * SmoothingRate);
  }

  /** The rotation guard: the normalized direction is long enough to look along. */
  predicate CanLookAlong(startPos: Vec3, endPos: Vec3, env: Engine) {
    env.sqrMagnitude(env.normalized(Sub(endPos, startPos))) > 0.0001
  }

  /**
   * A bone turned a clamped `dt * 10` of the way toward looking from
   * `startPos` to `endPos`, unless that direction is degenerate. Turning
   * never moves the bone.
   */
  function Turned(bone: Bone, startPos: Vec3, endPos: Vec3, dt: real, env: Engine): (r: Bone)
    ensures r.position == bone.position
  {
    if CanLookAlong(startPos, endPos, env) then
      var direction := env.normalized(Sub(endPos, startPos));
      bone.(rotation := env.slerp(bone.rotation, env.lookRotation(direction), Clamp01(dt * SmoothingRate)))
    else bone
  }

  /**
   * What `UpdateBoneRotation` does: only the given bone's rotation can
   * change, and nothing changes at all for an unassigned bone or a
   * degenerate direction.
   */
  function BoneTurn(b: Skeleton, bone: Joint, startPos: Vec3, endPos: Vec3, dt: real, env: Engine): (r: Skeleton)
    ensures r.Keys == b.Keys
    ensures forall j :: j in b ==> r[j].position == b[j].position
    ensures forall j :: j in b && j != bone ==> r[j] == b[j]
  {
    if bone in b then b[bone := Turned(b[bone], startPos, endPos, dt, env)] else b
  }

  /**
   * When the normalized direction is too short to look along,
   * `UpdateBoneRotation` changes nothing, and so repeating it changes
   * nothing either.
   */
  lemma DegenerateTurnIsNoOp(b: Skeleton, bone: Joint, startPos: Vec3, endPos: Vec3, dt: real, env: Engine)
    requires !CanLookAlong(startPos, endPos, env)
    ensures BoneTurn(b, bone, startPos, endPos, dt, env) == b
    ensures BoneTurn(BoneTurn(b, bone, startPos, endPos, dt, env), bone, startPos, endPos, dt, env) == b
  {
    if bone in b {
      assert Turned(b[bone], startPos, endPos, dt, env) == b[bone];
    }
  }

  /** The eight limb bones of `UpdateAllRotations`, each with the child joint it points at. */
  function LimbChild(j: Joint): (r: Option<Joint>)
    ensures r.None? <==> j.Head? || j.LeftHand? || j.RightHand? || j.LeftFoot? || j.RightFoot?
  {
    match j
    case LeftShoulder => Some(LeftElbow)
    case LeftElbow => Some(LeftHand)
    case RightShoulder => Some(RightElbow)
    case RightElbow => Some(RightHand)
    case LeftHip => Some(LeftKnee)
    case LeftKnee => Some(LeftFoot)
    case RightHip => Some(RightKnee)
    case RightKnee => Some(RightFoot)
    case _ => None
  }

  /**
   * What `UpdateAllRotations` does, stated for all bones at once: every
   * limb bone whose joint and child are both assigned turns toward its
   * child; head, hands and feet, and every position, stay as they were.
   */
  function AllTurns(b: Skeleton, dt: real, env: Engine): (r: Skeleton)
    ensures r.Keys == b.Keys
    ensures forall j :: j in b ==> r[j].position == b[j].position
    ensures forall j :: j in b && LimbChild(j).None? ==> r[j] == b[j]
    ensures forall j :: j in b && LimbChild(j).Some? && LimbChild(j).value !in b ==> r[j] == b[j]
  {
    map j | j in b :: LimbBone(b, j, dt, env)
  }

  /** Bone `j` after `UpdateAllRotations`: turned toward its child when it is a limb bone and the child is assigned. */
  function LimbBone(b: Skeleton, j: Joint, dt: real, env: Engine): (r: Bone)
    requires j in b
    ensures r.position == b[j].position
    ensures LimbChild(j).None? || LimbChild(j).value !in b ==> r == b[j]
  {
    match LimbChild(j)
    case Some(child) =>
      if child in b then Turned(b[j], b[j].position, b[child].position, dt, env) else b[j]
    case None => b[j]
  }

  /** One line of `UpdateAllRotations`: turn `parent` toward `child` when both are assigned. */
  function LimbTurn(b: Skeleton, parent: Joint, child: Joint, dt: real, env: Engine): Skeleton {
    if parent in b && child in b then BoneTurn(b, parent, b[parent].position, b[child].position, dt, env) else b
  }

  /** The bone that line `k` (0 to 7) of `UpdateAllRotations` turns. */
  function LimbParent(k: nat): (j: Joint)
    requires k < 8
    ensures LimbChild(j).Some?
  {
    if k == 0 then LeftShoulder
    else if k == 1 then LeftElbow
    else if k == 2 then RightShoulder
    else if k == 3 then RightElbow
    else if k == 4 then LeftHip
    else if k == 5 then LeftKnee
    else if k == 6 then RightHip
    else RightKnee
  }

  /** The line of `UpdateAllRotations` that turns `j`; 8 for the five joints no line turns. */
  function LimbLine(j: Joint): (k: nat)
    ensures k <= 8
    ensures k < 8 <==> LimbChild(j).Some?
    ensures k < 8 ==> LimbParent(k) == j
  {
    match j
    case LeftShoulder => 0
    case LeftElbow => 1
    case RightShoulder => 2
    case RightElbow => 3
    case LeftHip => 4
    case LeftKnee => 5
    case RightHip => 6
    case RightKnee => 7
    case _ => 8
  }

  /** The first `n` lines of `UpdateAllRotations`, run in source order. */
  function TurnLines(b: Skeleton, n: nat, dt: real, env: Engine): Skeleton
    requires n <= 8
  {
    if n == 0 then b
    else
      var parent := LimbParent(n - 1);
      LimbTurn(TurnLines(b, n - 1, dt, env), parent, LimbChild(parent).value, dt, env)
  }

  /** Line `n` of `UpdateAllRotations`, turning `parent` toward `child`, follows the first `n` lines. */
  lemma TurnLinesNext(b: Skeleton, n: nat, parent: Joint, child: Joint, dt: real, env: Engine)
    requires n < 8 && parent == LimbParent(n) && LimbChild(parent) == Some(child)
    ensures TurnLines(b, n + 1, dt, env) == LimbTurn(TurnLines(b, n, dt, env), parent, child, dt, env)
  {
  }

  /** `x` is `b` with the bones of the first `n` lines turned as `AllTurns` turns them. */
  ghost predicate TurnedLines(x: Skeleton, b: Skeleton, n: nat, dt: real, env: Engine) {
    && x.Keys == b.Keys
    && forall j :: j in b ==> x[j] == if LimbLine(j) < n then LimbBone(b, j, dt, env) else b[j]
  }

  /**
   * After the first `n` lines, each of their bones is turned as `AllTurns`
   * turns it, and every other bone is untouched: a line moves no position,
   * so later lines see the positions earlier lines saw, and no bone is
   * turned by two lines.
   */
  lemma {:induction false} TurnLinesSoFar(b: Skeleton, n: nat, dt: real, env: Engine)
    requires n <= 8
    ensures TurnedLines(TurnLines(b, n, dt, env), b, n, dt, env)
  {
    if n > 0 {
      TurnLinesSoFar(b, n - 1, dt, env);
      var x := TurnLines(b, n - 1, dt, env);
      var parent := LimbParent(n - 1);
      var child := LimbChild(parent).value;
      var y := LimbTurn(x, parent, child, dt, env);
      assert LimbLine(parent) == n - 1;
      forall j | j in b
        ensures y[j] == if LimbLine(j) < n then LimbBone(b, j, dt, env) else b[j]
      {
        if j == parent {
          if child in b {
            assert x[parent] == b[parent];
            assert x[child].position == b[child].position;
          }
        } else {
          assert y[j] == x[j];
        }
      }
    }
  }

  /**
   * Running the eight lines of `UpdateAllRotations` in source order is the
   * same as turning every limb bone at once.
   */
  lemma SequentialIsSimultaneous(b: Skeleton, dt: real, env: Engine)
    ensures TurnLines(b, 8, dt, env) == AllTurns(b, dt, env)
  {
    TurnLinesSoFar(b, 8, dt, env);
    var r := TurnLines(b, 8, dt, env);
    var all := AllTurns(b, dt, env);
    forall j | j in b ensures r[j] == all[j] {
    }
  }

  /** The animator: the skeleton it drives. */
  class MoveNetAnimator {
    var bones: Skeleton

    constructor (bones: Skeleton)
      ensures this.bones == bones
    {
      this.bones := bones;
    }

    /** `UpdatePose`: move each mapped, assigned joint toward its projected keypoint. */
    method UpdatePose(keypoints2D: seq<Vec2>, depth: real, dt: real, env: Engine)
      modifies this
      ensures bones == PoseStep(old(bones), keypoints2D, depth, dt, env)
    {
      var i := 0;
      while i < |keypoints2D|
        invariant 0 <= i <= |keypoints2D|
        invariant bones == PosedUpTo(old(bones), keypoints2D, i, depth, dt, env)
      {
        PosedUpToNext(old(bones), keypoints2D, i, depth, dt, env);
        if i in KeypointMapping && KeypointMapping[i] in bones {
          var joint := KeypointMapping[i];
          var targetPosition := Convert2DTo3D(keypoints2D[i], depth, env);
          bones := bones[joint := bones[joint].(position := Lerp(bones[joint].position, targetPosition, dt * SmoothingRate))];
        }
        i := i + 1;
      }
    }

    /** `UpdateBoneRotation`: turn `bone` toward the direction from `startPos` to `endPos`. */
    method UpdateBoneRotation(bone: Joint, startPos: Vec3, endPos: Vec3, dt: real, env: Engine)
      modifies this
      ensures bones == BoneTurn(old(bones), bone, startPos, endPos, dt, env)
    {
      if bone !in bones {
        return;
      }
      var direction := env.normalized(Sub(endPos, startPos));
      if env.sqrMagnitude(direction) > 0.0001 {
        bones := bones[bone := bones[bone].(rotation := env.slerp(bones[bone].rotation, env.lookRotation(direction), Clamp01(dt * SmoothingRate)))];
      }
    }

    /** `UpdateAllRotations`: the eight limb bones, each turned toward its child when both are assigned. */
    method UpdateAllRotations(dt: real, env: Engine)
      modifies this
      ensures bones == TurnLines(old(bones), 8, dt, env)
      ensures bones == AllTurns(old(bones), dt, env)
    {
      TurnLimb(LeftShoulder, LeftElbow, dt, env);
      TurnLinesNext(old(bones), 0, LeftShoulder, LeftElbow, dt, env);
      TurnLimb(LeftElbow, LeftHand, dt, env);
      TurnLinesNext(old(bones), 1, LeftElbow, LeftHand, dt, env);
      TurnLimb(RightShoulder, RightElbow, dt, env);
      TurnLinesNext(old(bones), 2, RightShoulder, RightElbow, dt, env);
      TurnLimb(RightElbow, RightHand, dt, env);
      TurnLinesNext(old(bones), 3, RightElbow, RightHand, dt, env);
      TurnLimb(LeftHip, LeftKnee, dt, env);
      TurnLinesNext(old(bones), 4, LeftHip, LeftKnee, dt, env);
      TurnLimb(LeftKnee, LeftFoot, dt, env);
      TurnLinesNext(old(bones), 5, LeftKnee, LeftFoot, dt, env);
      TurnLimb(RightHip, RightKnee, dt, env);
      TurnLinesNext(old(bones), 6, RightHip, RightKnee, dt, env);
      TurnLimb(RightKnee, RightFoot, dt, env);
      TurnLinesNext(old(bones), 7, RightKnee, RightFoot, dt, env);
      SequentialIsSimultaneous(old(bones), dt, env);
    }

    /** One line of `UpdateAllRotations`: turn `parent` toward `child` when both are assigned. */
    method TurnLimb(parent: Joint, child: Joint, dt: real, env: Engine)
      modifies this
      ensures bones == LimbTurn(old(bones), parent, child, dt, env)
    {
      if parent in bones && child in bones {
        UpdateBoneRotation(parent, bones[parent].position, bones[child].position, dt, env);
      }
    }
  }

  /**
   * The animator's static `Instance` after a sequence of `Awake` calls: the
   * first animator to wake becomes the instance, and it is never replaced.
   */
  function InstanceAfter(instance: MoveNetAnimator?, awakened: seq<MoveNetAnimator>): (r: MoveNetAnimator?)
    ensures instance != null ==> r == instance
    ensures instance == null && awakened == [] ==> r == null
    ensures instance == null && awakened != [] ==> r == awakened[0]
    decreases |awakened|
  {
    if awakened == [] then instance
    else InstanceAfter(if instance == null then awakened[0] else instance, awakened[1..])
  }

  /**
   * The static state of the animator class: the `Instance` slot, and the
   * animators `Awake` has destroyed as duplicates.
   */
  class AnimatorRegistry {
    var instance: MoveNetAnimator?
    var destroyed: seq<MoveNetAnimator>

    constructor ()
      ensures instance == null && destroyed == []
    {
      instance := null;
      destroyed := [];
    }

    /** `Awake`: claim the instance slot if it is empty, otherwise destroy this animator. */
    method Awake(self: MoveNetAnimator)
      modifies this
      ensures instance == InstanceAfter(old(instance), [self])
      ensures old(instance) == null ==> destroyed == old(destroyed)
      ensures old(instance) != null ==> destroyed == old(destroyed) + [self]
    {
      if instance == null {
        instance := self;
      } else {
        destroyed := destroyed + [self];
      }
    }
  }
}
