/*
 * The MoveNet multi-pose sample: how camera frames are scheduled onto the
 * pose model, and how the first detected pose is forwarded to the animator.
 *
 * The pose model itself is foreign: a run is represented by the poses it
 * returns, which arrive as event parameters. The asynchronous task is
 * represented by a `busy` flag (the task has not completed) and by two
 * ghost counters of inferences started and finished.
 */
module MultiPose {
  import opened Wrappers
  import opened Animation

  /** `MoveNetPose.JOINT_COUNT`: MoveNet reports 17 keypoints per person. */
  const JointCount: nat := 17

  /** One keypoint of a detected pose: normalized image coordinates and a confidence. */
  datatype Keypoint = Keypoint(x: real, y: real, score: real)

  /** A detected person: one keypoint per MoveNet joint. */
  type Pose = s: seq<Keypoint> | |s| == JointCount
    witness seq(JointCount, _ => Keypoint(0.0, 0.0, 0.0))

  /**
   * The scheduling state of the sample: whether the background task is
   * still outstanding, the last poses written (`None` while `poses` is
   * still null), and how many inferences have started and finished.
   */
  datatype Scheduler = Scheduler(busy: bool, poses: Option<seq<Pose>>, started: nat, finished: nat)

  /**
   * What can happen to the sample: a camera frame arrives (carrying the
   * poses the model returns for it when run synchronously), or the
   * outstanding background run completes with its poses or is cancelled.
   */
  datatype Event =
    | FrameArrives(results: seq<Pose>)
    | TaskCompletes(results: seq<Pose>)
    | TaskCancelled

  /** The state before any frame: the default task counts as completed, and there are no poses yet. */
  const Initial := Scheduler(false, None, 0, 0)

  /** Every started inference has finished, except the one outstanding task when the sample is busy. */
  predicate SingleInFlight(s: Scheduler) {
    s.started == s.finished + (if s.busy then 1 else 0)
  }

  /**
   * One event, as `OnTextureUpdate`, `Invoke` and the continuation of
   * `InvokeAsync` handle it. In background mode a frame starts a run only
   * when no task is outstanding and is dropped otherwise; in synchronous
   * mode every frame runs the model and replaces the poses. Poses change
   * only when a run finishes, and then to that run's results.
   */
  function Next(runBackground: bool, s: Scheduler, e: Event): (r: Scheduler)
    ensures SingleInFlight(s) ==> SingleInFlight(r)
    ensures runBackground && s.busy && e.FrameArrives? ==> r == s
    ensures runBackground && !s.busy && e.FrameArrives? ==> r.busy && r.started == s.started + 1 && r.poses == s.poses
    ensures !runBackground && e.FrameArrives? ==>
      r.poses == Some(e.results) && r.started == s.started + 1 && r.finished == s.finished + 1 && r.busy == s.busy
    ensures !runBackground && !s.busy ==> !r.busy
    ensures r.started <= s.started + 1
    ensures r.poses != s.poses ==> (e.TaskCompletes? || (e.FrameArrives? && !runBackground)) && r.poses == Some(e.results)
    ensures !s.busy && !e.FrameArrives? ==> r == s
    ensures s.busy && e.TaskCompletes? ==>
      !r.busy && r.poses == Some(e.results) && r.started == s.started && r.finished == s.finished + 1
    ensures s.busy && e.TaskCancelled? ==>
      !r.busy && r.poses == s.poses && r.started == s.started && r.finished == s.finished + 1
  {
    match e
    case FrameArrives(results) =>
      if runBackground then
        if s.busy then s else s.(busy := true, started := s.started + 1)
      else
        s.(poses := Some(results), started := s.started + 1, finished := s.finished + 1)
    case TaskCompletes(results) =>
      if s.busy then s.(busy := false, poses := Some(results), finished := s.finished + 1) else s
    case TaskCancelled =>
      if s.busy then s.(busy := false, finished := s.finished + 1) else s
  }

  /** The state after a whole sequence of events, in order. */
  function RunEvents(runBackground: bool, s: Scheduler, events: seq<Event>): Scheduler
    decreases |events|
  {
    if |events| == 0 then s else RunEvents(runBackground, Next(runBackground, s, events[0]), events[1..])
  }

  /** At most one inference is ever in flight, whatever the events. */
  lemma {:induction false} RunKeepsSingleInFlight(runBackground: bool, s: Scheduler, events: seq<Event>)
    requires SingleInFlight(s)
    ensures SingleInFlight(RunEvents(runBackground, s, events))
    ensures RunEvents(runBackground, s, events).started <= RunEvents(runBackground, s, events).finished + 1
    decreases |events|
  {
    if |events| > 0 {
      RunKeepsSingleInFlight(runBackground, Next(runBackground, s, events[0]), events[1..]);
    }
  }

  /** Frames arriving while a background task is outstanding are dropped: nothing starts and nothing changes. */
  lemma {:induction false} FramesWhileBusyAreDropped(s: Scheduler, events: seq<Event>)
    requires s.busy
    requires forall i :: 0 <= i < |events| ==> events[i].FrameArrives?
    ensures RunEvents(true, s, events) == s
    decreases |events|
  {
    if |events| > 0 {
      FramesWhileBusyAreDropped(s, events[1..]);
    }
  }

  /** In synchronous mode every frame runs the model once, and the poses are those of the last frame. */
  lemma {:induction false} SyncRunsEveryFrame(s: Scheduler, events: seq<Event>)
    requires forall i :: 0 <= i < |events| ==> events[i].FrameArrives?
    ensures RunEvents(false, s, events).started == s.started + |events|
    ensures RunEvents(false, s, events).finished == s.finished + |events|
    ensures RunEvents(false, s, events).busy == s.busy
    ensures |events| > 0 ==> RunEvents(false, s, events).poses == Some(events[|events| - 1].results)
    ensures |events| == 0 ==> RunEvents(false, s, events).poses == s.poses
    decreases |events|
  {
    if |events| > 0 {
      var rest := events[1..];
      SyncRunsEveryFrame(Next(false, s, events[0]), rest);
      if |rest| > 0 {
        assert rest[|rest| - 1] == events[|events| - 1];
      }
    }
  }

  /**
   * In background mode the poses are either the ones there were before,
   * or the results of a task that completed: frames alone never write them.
   */
  lemma {:induction false} BackgroundPosesComeFromCompletedTasks(s: Scheduler, events: seq<Event>)
    ensures var r := RunEvents(true, s, events);
      || r.poses == s.poses
      || exists i :: 0 <= i < |events| && events[i].TaskCompletes? && r.poses == Some(events[i].results)
    decreases |events|
  {
    if |events| > 0 {
      var t := Next(true, s, events[0]);
      var rest := events[1..];
      BackgroundPosesComeFromCompletedTasks(t, rest);
      var r := RunEvents(true, t, rest);
      if r.poses != t.poses {
        var i :| 0 <= i < |rest| && rest[i].TaskCompletes? && r.poses == Some(rest[i].results);
        assert events[i + 1] == rest[i];
      } else if t.poses != s.poses {
        assert events[0].TaskCompletes?;
      }
    }
  }

  /**
   * A concrete run in background mode: of three frames arriving in a row,
   * only the first starts an inference; the poses appear when that task
   * completes, and the next frame starts a second one.
   */
  lemma DroppedFramesScenario(a: seq<Pose>, b: seq<Pose>, c: seq<Pose>, done: seq<Pose>, d: seq<Pose>)
    ensures RunEvents(true, Initial, [FrameArrives(a), FrameArrives(b), FrameArrives(c)]) == Scheduler(true, None, 1, 0)
    ensures RunEvents(true, Initial, [FrameArrives(a), FrameArrives(b), FrameArrives(c), TaskCompletes(done), FrameArrives(d)])
      == Scheduler(true, Some(done), 2, 1)
  {
    var started := Next(true, Initial, FrameArrives(a));
    FramesWhileBusyAreDropped(started, [FrameArrives(b), FrameArrives(c)]);
    var events := [FrameArrives(a), FrameArrives(b), FrameArrives(c), TaskCompletes(done), FrameArrives(d)];
    var finished := Scheduler(false, Some(done), 1, 1);
    var restarted := Scheduler(true, Some(done), 2, 1);
    assert RunEvents(true, restarted, []) == restarted;
    assert RunEvents(true, finished, [FrameArrives(d)]) == restarted;
    assert [TaskCompletes(done), FrameArrives(d)][1..] == [FrameArrives(d)];
    assert RunEvents(true, started, [TaskCompletes(done), FrameArrives(d)]) == restarted;
    FramesWhileBusyAreDropped(started, [FrameArrives(b), FrameArrives(c)]);
    assert events[1..] == [FrameArrives(b), FrameArrives(c), TaskCompletes(done), FrameArrives(d)];
    assert events[1..][1..] == [FrameArrives(c), TaskCompletes(done), FrameArrives(d)];
    assert events[1..][1..][1..] == [TaskCompletes(done), FrameArrives(d)];
    assert RunEvents(true, started, events[1..][1..]) == restarted;
    assert RunEvents(true, started, events[1..]) == restarted;
  }

  /** The (x, y) coordinates of a pose in joint order; the confidences are dropped. */
  function Positions(pose: Pose): (r: seq<Vec2>)
    ensures |r| == JointCount
  {
    seq(JointCount, i requires 0 <= i < JointCount => Vec2(pose[i].x, pose[i].y))
  }

  /** Two poses that differ only in confidence give the animator the same keypoints. */
  lemma PositionsIgnoreScores(p: Pose, q: Pose)
    requires forall i :: 0 <= i < JointCount ==> p[i].x == q[i].x && p[i].y == q[i].y
    ensures Positions(p) == Positions(q)
  {
    assert forall i :: 0 <= i < JointCount ==> Positions(p)[i] == Positions(q)[i];
  }

  /** The keypoint copy loop of `Update`: one (x, y) pair per joint, in index order. */
  method ExtractKeypoints(mainPose: Pose) returns (keypoints2D: seq<Vec2>)
    ensures |keypoints2D| == JointCount
    ensures forall i :: 0 <= i < JointCount ==> keypoints2D[i] == Vec2(mainPose[i].x, mainPose[i].y)
    ensures keypoints2D == Positions(mainPose)
  {
    var buffer := new Vec2[JointCount](_ => Vec2(0.0, 0.0));
    var i := 0;
    while i < JointCount
      invariant 0 <= i <= JointCount
      invariant forall k :: 0 <= k < i ==> buffer[k] == Vec2(mainPose[k].x, mainPose[k].y)
    {
      buffer[i] := Vec2(mainPose[i].x, mainPose[i].y);
      i := i + 1;
    }
    keypoints2D := buffer[..];
  }

  /** The sample component: its mode, its task state and its last poses. */
  class MoveNetMultiPoseSample {
    const runBackground: bool
    var busy: bool
    var poses: Option<seq<Pose>>
    ghost var started: nat
    ghost var finished: nat

    /** The component's scheduling state, as the event model sees it. */
    ghost function State(): Scheduler
      reads this
    {
      Scheduler(busy, poses, started, finished)
    }

    constructor (runBackground: bool)
      ensures this.runBackground == runBackground
      ensures State() == Initial
    {
      this.runBackground := runBackground;
      busy := false;
      poses := None;
      started := 0;
      finished := 0;
    }

    /** `OnTextureUpdate`: a new camera frame, whose synchronous results would be `results`. */
    method OnTextureUpdate(results: seq<Pose>)
      modifies this
      ensures State() == Next(runBackground, old(State()), FrameArrives(results))
    {
      if runBackground {
        if !busy {
          InvokeAsync();
        }
      } else {
        Invoke(results);
      }
    }

    /** `Invoke`: run the model on the frame and take its results at once. */
    method Invoke(results: seq<Pose>)
      modifies this
      ensures poses == Some(results)
      ensures started == old(started) + 1 && finished == old(finished) + 1
      ensures busy == old(busy)
    {
      started := started + 1;
      poses := Some(results);
      finished := finished + 1;
    }

    /** `InvokeAsync` up to its `await`: a background run starts and becomes the outstanding task. */
    method InvokeAsync()
      modifies this
      ensures busy
      ensures started == old(started) + 1 && finished == old(finished)
      ensures poses == old(poses)
    {
      busy := true;
      started := started + 1;
    }

    /** The rest of `InvokeAsync` once the awaited run returns: take its results; the task completes. */
    method CompleteTask(results: seq<Pose>)
      modifies this
      ensures State() == Next(runBackground, old(State()), TaskCompletes(results))
    {
      if busy {
        poses := Some(results);
        busy := false;
        finished := finished + 1;
      }
    }

    /** The awaited run is cancelled: the task ends without writing poses. */
    method CancelTask()
      modifies this
      ensures State() == Next(runBackground, old(State()), TaskCancelled)
    {
      if busy {
        busy := false;
        finished := finished + 1;
      }
    }

    /**
     * `Update`: when there are poses, send the keypoints of the first one
     * to the animator at the default depth; otherwise leave the skeleton
     * as it is.
     */
    method Update(animator: MoveNetAnimator, dt: real, env: Engine)
      modifies animator
      ensures poses.None? || |poses.value| == 0 ==> animator.bones == old(animator.bones)
      ensures poses.Some? && |poses.value| > 0 ==>
        animator.bones == PoseStep(old(animator.bones), Positions(poses.value[0]), 5.0, dt, env)
    {
      if poses.Some? && |poses.value| > 0 {
        var mainPose := poses.value[0];
        var keypoints2D := ExtractKeypoints(mainPose);
        animator.UpdatePose(keypoints2D, 5.0, dt, env);
      }
    }
  }
}
