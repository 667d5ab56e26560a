# Pose retargeting and label ranking, modelled in Dafny

This project models three pieces of a Unity sample project that runs
TensorFlow Lite models:

- **Label ranking in the audio classifier** (`audio_classification.dfy`, module `Audio`).
  - `OutPutToLabelJob.Execute` pairs every score of the interpreter's output buffer with its class index.
  - It then bubble-sorts these labels in place, in descending score order.
  - `GetTopLabels` returns a clamped prefix of the result.
  - The model keeps the in-place array algorithm. It proves that the result is a stable, descending-score permutation of the labelled scores, and that this ranking is unique.
- **Keypoint-to-skeleton retargeting** (`movenet_animator.dfy`, module `Animation`).
  - The animator holds a fixed table from MoveNet landmark index to skeleton joint.
  - `UpdatePose` moves each mapped, assigned joint a clamped `dt * 10` of the way toward its keypoint projected into the world.
  - `UpdateBoneRotation` and `UpdateAllRotations` turn the eight limb bones toward their child joints, unless the direction is degenerate.
  - `Awake` enforces a single instance.
  - The skeleton is a map from joint to bone (position and rotation). A joint whose transform is not assigned has no entry.
  - Unity's services are fields of an `Engine` value: screen size, `ScreenToWorldPoint`, `normalized`, `sqrMagnitude`, `LookRotation` and `Slerp`.
- **Frame-driven inference scheduling** (`multipose_sample.dfy`, module `MultiPose`).
  - On each camera frame, the multi-pose sample either runs the pose model synchronously or starts a background run.
  - A background run starts only when no earlier task is outstanding; otherwise the frame is dropped.
  - `Update` forwards the (x, y) keypoints of the first detected pose to the animator.
  - The scheduling is a state machine (`Scheduler`, `Event`, `Next`) which the component's methods follow step by step. The component is the class `MoveNetMultiPoseSample`.
  - The state machine has a `busy` flag standing in for the task status, the last poses, and counters of inferences started and finished.

`wrappers.dfy` holds the `Option` type shared by the modules.

The interpolation factor of both smoothing updates is clamped to [0, 1], because the code calls Unity's `Vector3.Lerp` and `Quaternion.Slerp`, and both clamp their factor.

## Model

Source paths are relative to the repository root.

| member | source | states |
|---|---|---|
| Audio.CompareTo | Assets/tf-lite-unity-sample-2.17.0/Assets/Samples/AudioClassification/AudioClassification.cs:21-24 | Negative exactly when this label scores higher than the other, zero exactly on equal scores, positive exactly when it scores lower; always -1, 0 or 1 |
| Audio.Execute | Assets/tf-lite-unity-sample-2.17.0/Assets/Samples/AudioClassification/AudioClassification.cs:84-108 | Afterwards the output is a permutation of the labelled scores, in non-increasing score order, with equal scores in ascending index order; with 0 or 1 scores the sort loops do nothing and the output is the plain labelling |
| Audio.BubblePass | Assets/tf-lite-unity-sample-2.17.0/Assets/Samples/AudioClassification/AudioClassification.cs:97-106 | One inner pass over the unsettled prefix `[0, m)` keeps the labels (as a multiset) and the order of ties, and settles slot `m - 1`: the settled suffix grows by one, stays descending and scores no higher than anything before it; slots from `m` on are left exactly as they were |
| Audio.CompareAndSwap | Assets/tf-lite-unity-sample-2.17.0/Assets/Samples/AudioClassification/AudioClassification.cs:99-105 | Swaps two neighbours exactly when the right one has a strictly higher score, and otherwise leaves the array as it was |
| Audio.PassStep | Assets/tf-lite-unity-sample-2.17.0/Assets/Samples/AudioClassification/AudioClassification.cs:99-105 | One compare-and-swap keeps the labels and moves the lowest score seen so far in the pass to slot `j + 1`, keeping the settled suffix and the order of ties |
| Audio.PassDone | Assets/tf-lite-unity-sample-2.17.0/Assets/Samples/AudioClassification/AudioClassification.cs:95-107 | At the end of a pass, slot `m - 1` joins the settled suffix: the outer loop's invariant for the next `i` |
| Audio.SwapKeepsTies | Assets/tf-lite-unity-sample-2.17.0/Assets/Samples/AudioClassification/AudioClassification.cs:99-105 | Swapping neighbours whose scores differ keeps every pair of equal-scored labels in ascending index order (the sort is stable) |
| Audio.FirstHasLeastId | Assets/tf-lite-unity-sample-2.17.0/Assets/Samples/AudioClassification/AudioClassification.cs:21-24 | In a stable descending order, the first label has the least index among the labels sharing its score |
| Audio.FirstOfStableOrder | Assets/tf-lite-unity-sample-2.17.0/Assets/Samples/AudioClassification/AudioClassification.cs:21-24 | Two stable descending orders of the same labels start with the same label |
| Audio.TailOfStableOrder | Assets/tf-lite-unity-sample-2.17.0/Assets/Samples/AudioClassification/AudioClassification.cs:21-24 | Dropping the first label of a stable descending order leaves a stable descending order |
| Audio.StableOrderUnique | Assets/tf-lite-unity-sample-2.17.0/Assets/Samples/AudioClassification/AudioClassification.cs:95-107 | Two stable descending orders of the same multiset of labels are the same sequence |
| Audio.RankingUnique | Assets/tf-lite-unity-sample-2.17.0/Assets/Samples/AudioClassification/AudioClassification.cs:84-108 | The ranking of a score buffer is unique, so the job's result is determined by the scores alone |
| Audio.AudioClassification.constructor | Assets/tf-lite-unity-sample-2.17.0/Assets/Samples/AudioClassification/AudioClassification.cs:41-46 | The input and output buffers get the tensor sizes and are distinct buffers, and the labels buffer gets the output buffer's length |
| Audio.AudioClassification.Run | Assets/tf-lite-unity-sample-2.17.0/Assets/Samples/AudioClassification/AudioClassification.cs:57-69 | The output buffer holds the interpreter's scores, the labels buffer holds their ranking, and the input buffer is untouched |
| Audio.AudioClassification.GetTopLabels | Assets/tf-lite-unity-sample-2.17.0/Assets/Samples/AudioClassification/AudioClassification.cs:71-74 | For `topK >= 0`, the first `min(topK, labels.Length)` labels, element by element; a `topK` past the end gives the whole buffer; a negative `topK` gives no slice |
| Audio.TopLabelsAreBest | Assets/tf-lite-unity-sample-2.17.0/Assets/Samples/AudioClassification/AudioClassification.cs:71-74 | Every label in a ranking's top-K prefix beats every label left out: a higher score, or an equal score and a lower index |
| Audio.RankingExample | Assets/tf-lite-unity-sample-2.17.0/Assets/Samples/AudioClassification/AudioClassification.cs:84-108 | The scores [0.1, 0.9, 0.9, 0.3] rank as indices 1, 2, 3, 0, and the top two are indices 1 and 2 |
| Audio.ExampleOrderIsRanking | Assets/tf-lite-unity-sample-2.17.0/Assets/Samples/AudioClassification/AudioClassification.cs:84-108 | The order 1, 2, 3, 0 is a stable descending permutation of the labelled scores [0.1, 0.9, 0.9, 0.3] |
| Animation.Clamp01 | Assets/Scripts/MoveNetAnimator.cs:68 | The interpolation factor is clamped into [0, 1]: unchanged inside, 0 below, 1 above |
| Animation.Lerp | Assets/Scripts/MoveNetAnimator.cs:68 | A factor of 0 or less gives the start point, and a factor of 1 or more gives the target |
| Animation.LerpApproaches | Assets/Scripts/MoveNetAnimator.cs:67-68 | The remaining offset to the target is the old offset scaled by `1 - clamp01(t)`, so the new point is never farther from the target than the old one |
| Animation.ScreenPoint | Assets/Scripts/MoveNetAnimator.cs:47-56 | The screen point that `Convert2DTo3D` hands to the engine's `ScreenToWorldPoint`: depth passes through unchanged; x can be read back as `r.x / width` and y as `1 - r.y / height`, so y is flipped; keypoints in the unit square land on the screen |
| Animation.JointIndex | Assets/Scripts/MoveNetAnimator.cs:15-24 | Every joint is driven by landmark 0 or by one of the landmarks 5 to 16 |
| Animation.KeypointMappingShape | Assets/Scripts/MoveNetAnimator.cs:15-24 | The mapping is defined on exactly {0, 5, ..., 16} and leaves 1 to 4 unmapped; it is injective; every joint is the image of exactly its own landmark |
| Animation.MappingInverse | Assets/Scripts/MoveNetAnimator.cs:15-24 | Landmark `i` maps to joint `j` if and only if `j`'s landmark index is `i` |
| Animation.PoseStep | Assets/Scripts/MoveNetAnimator.cs:61-71 | The same joints stay assigned, and no rotation changes. A joint whose landmark index is past the keypoints stays as it was. Every other assigned joint's position is the clamped lerp toward its projected keypoint |
| Animation.PoseStepApproaches | Assets/Scripts/MoveNetAnimator.cs:67-68 | Every joint `UpdatePose` moves ends no farther from its projected keypoint than it started |
| Animation.MoveNetAnimator.UpdatePose | Assets/Scripts/MoveNetAnimator.cs:61-71 | The loop over the keypoints leaves the skeleton exactly as `PoseStep` describes |
| Animation.Turned | Assets/Scripts/MoveNetAnimator.cs:80-84 | Turning a bone never moves it |
| Animation.BoneTurn | Assets/Scripts/MoveNetAnimator.cs:76-85 | The same joints stay assigned, no position changes, and every bone other than the turned one is unchanged |
| Animation.DegenerateTurnIsNoOp | Assets/Scripts/MoveNetAnimator.cs:78-84 | When the normalized direction's squared magnitude is at most 0.0001, the turn changes nothing, and so neither does repeating it |
| Animation.MoveNetAnimator.UpdateBoneRotation | Assets/Scripts/MoveNetAnimator.cs:76-85 | The skeleton afterwards is exactly `BoneTurn` of the skeleton before; an unassigned bone changes nothing |
| Animation.LimbChild | Assets/Scripts/MoveNetAnimator.cs:92-102 | Exactly the head, the hands and the feet have no limb child; the other eight joints are the parents turned by `UpdateAllRotations` |
| Animation.LimbBone | Assets/Scripts/MoveNetAnimator.cs:90-103 | A bone's position never changes; a joint with no limb child, or with an unassigned child, keeps its bone |
| Animation.AllTurns | Assets/Scripts/MoveNetAnimator.cs:90-103 | The same joints stay assigned and no position changes. A joint with no limb child keeps its bone, so the head, hands and feet are never turned, and so does a parent whose child is unassigned |
| Animation.LimbParent | Assets/Scripts/MoveNetAnimator.cs:92-102 | Each of the eight source lines turns a joint that has a limb child |
| Animation.LimbLine | Assets/Scripts/MoveNetAnimator.cs:92-102 | A joint is turned by a line of `UpdateAllRotations` exactly when it has a limb child, and by exactly one line |
| Animation.TurnLinesSoFar | Assets/Scripts/MoveNetAnimator.cs:90-103 | After the first `n` lines, their bones are turned as if all at once, and every other bone is untouched |
| Animation.SequentialIsSimultaneous | Assets/Scripts/MoveNetAnimator.cs:90-103 | Running the eight lines in source order equals turning every limb bone at once from the original positions |
| Animation.MoveNetAnimator.TurnLimb | Assets/Scripts/MoveNetAnimator.cs:92 | One line of `UpdateAllRotations`: the parent turns toward its child when both are assigned, and nothing changes otherwise |
| Animation.MoveNetAnimator.UpdateAllRotations | Assets/Scripts/MoveNetAnimator.cs:90-103 | The skeleton afterwards is the eight lines applied in order, and it equals `AllTurns` of the skeleton before |
| Animation.InstanceAfter | Assets/Scripts/MoveNetAnimator.cs:26-37 | An existing instance is never replaced; with none, the first animator to wake becomes the instance |
| Animation.AnimatorRegistry.constructor | Assets/Scripts/MoveNetAnimator.cs:6 | The instance slot starts empty and nothing is destroyed |
| Animation.AnimatorRegistry.Awake | Assets/Scripts/MoveNetAnimator.cs:26-37 | An awakening animator claims an empty slot; otherwise the slot keeps its instance and the newcomer is destroyed |
| MultiPose.Next | Assets/tf-lite-unity-sample-2.17.0/Assets/Samples/MoveNet/MoveNetMultiPoseSample.cs:72-98 | Each event keeps at most one inference in flight. In background mode, a frame while busy changes nothing, and a frame while idle starts exactly one run without touching the poses. In synchronous mode, a frame runs the model once and replaces the poses. Poses change only to the results of a finished run. A completion while busy frees the slot and publishes its results; a cancellation while busy frees the slot and keeps the poses; both finish exactly one inference. Completion and cancellation events while idle change nothing |
| MultiPose.RunKeepsSingleInFlight | Assets/tf-lite-unity-sample-2.17.0/Assets/Samples/MoveNet/MoveNetMultiPoseSample.cs:74-80 | Over any sequence of events, at most one inference is ever in flight |
| MultiPose.FramesWhileBusyAreDropped | Assets/tf-lite-unity-sample-2.17.0/Assets/Samples/MoveNet/MoveNetMultiPoseSample.cs:76-79 | Any sequence of frames arriving while a background task is outstanding starts nothing and changes nothing |
| MultiPose.SyncRunsEveryFrame | Assets/tf-lite-unity-sample-2.17.0/Assets/Samples/MoveNet/MoveNetMultiPoseSample.cs:81-91 | In synchronous mode, `n` frames run the model exactly `n` times, and the poses are the last frame's results |
| MultiPose.BackgroundPosesComeFromCompletedTasks | Assets/tf-lite-unity-sample-2.17.0/Assets/Samples/MoveNet/MoveNetMultiPoseSample.cs:93-98 | In background mode, the poses are either the ones from before or the results of a task that completed; frames and cancellations never write them |
| MultiPose.DroppedFramesScenario | Assets/tf-lite-unity-sample-2.17.0/Assets/Samples/MoveNet/MoveNetMultiPoseSample.cs:72-98 | Of three frames in a row, only the first starts a run. Its completion sets the poses, and the next frame starts the second run |
| MultiPose.PositionsIgnoreScores | Assets/tf-lite-unity-sample-2.17.0/Assets/Samples/MoveNet/MoveNetMultiPoseSample.cs:63-66 | Poses that differ only in confidence give the animator the same keypoints |
| MultiPose.ExtractKeypoints | Assets/tf-lite-unity-sample-2.17.0/Assets/Samples/MoveNet/MoveNetMultiPoseSample.cs:61-66 | Exactly `JOINT_COUNT` keypoints, entry `i` being the (x, y) of the pose's keypoint `i` |
| MultiPose.MoveNetMultiPoseSample.constructor | Assets/tf-lite-unity-sample-2.17.0/Assets/Samples/MoveNet/MoveNetMultiPoseSample.cs:16-25 | The sample starts idle, since the default task counts as completed, and has no poses |
| MultiPose.MoveNetMultiPoseSample.OnTextureUpdate | Assets/tf-lite-unity-sample-2.17.0/Assets/Samples/MoveNet/MoveNetMultiPoseSample.cs:72-85 | The component's state afterwards is `Next` of its state before, for a frame event |
| MultiPose.MoveNetMultiPoseSample.Invoke | Assets/tf-lite-unity-sample-2.17.0/Assets/Samples/MoveNet/MoveNetMultiPoseSample.cs:87-91 | One synchronous run: the poses become its results, and one inference starts and finishes |
| MultiPose.MoveNetMultiPoseSample.InvokeAsync | Assets/tf-lite-unity-sample-2.17.0/Assets/Samples/MoveNet/MoveNetMultiPoseSample.cs:93-95 | A background run starts and becomes outstanding, and the poses are untouched |
| MultiPose.MoveNetMultiPoseSample.CompleteTask | Assets/tf-lite-unity-sample-2.17.0/Assets/Samples/MoveNet/MoveNetMultiPoseSample.cs:95-97 | The component's state afterwards is `Next` of its state before, for a completion event |
| MultiPose.MoveNetMultiPoseSample.CancelTask | Assets/tf-lite-unity-sample-2.17.0/Assets/Samples/MoveNet/MoveNetMultiPoseSample.cs:93-95 | The component's state afterwards is `Next` of its state before, for a cancellation event |
| MultiPose.MoveNetMultiPoseSample.Update | Assets/tf-lite-unity-sample-2.17.0/Assets/Samples/MoveNet/MoveNetMultiPoseSample.cs:57-69 | With no poses, or an empty pose list, the skeleton is unchanged. Otherwise the skeleton afterwards is `PoseStep` of the first pose's (x, y) keypoints at depth 5 |

## Left out

- Audio.CompareTo: scores are reals, so the ordering of `float` NaN values under `float.CompareTo` is not modelled.
- Audio.AudioClassification.GetTopLabels: with a negative `topK`, the slice constructor rejects the bounds. The model returns `None` for that case instead of modelling the exception.
- Audio.AudioClassification.GetTopLabels: the source returns a live `NativeSlice` view over the labels buffer, so later writes to the buffer show through it. The model returns a copy of the prefix.
- Audio.Execute: requires the score and label buffers to have the same length. This is the only way `Run` calls it, and it is how the constructor sizes them.
- The Unity Jobs system: `job.Schedule().Complete()` runs `Execute` as a plain sequential method.
- The TFLite interpreter: the constructor's tensor queries, `SetInputTensorData`, `Invoke`, `GetOutputTensorData` and `Dispose`. These are foreign calls. Their results (tensor sizes, output scores, detected poses) are parameters.
- Animation.MoveNetAnimator.UpdateAllRotations: Unity's transform hierarchy is not modelled. In the engine, rotating a parent bone also moves its children's world positions, which later lines then read. In the model, no bone moves while bones are turned.
- Animation.MoveNetAnimator.UpdatePose: the transform hierarchy is not modelled. Setting a parent's position (a shoulder, landmarks 5 and 6) also moves nested children (the elbows, 7 and 8), whose positions the loop reads later. In the model, each joint moves on its own.
- Animation.MoveNetAnimator.UpdateBoneRotation: the transform hierarchy is not modelled. `BoneTurn` promises that every bone other than the turned one is unchanged, but in the engine the turned bone's children also move and turn in world space.
- Animation.MoveNetAnimator.UpdatePose: `keypointMapping` is a constant. The model does not capture that the dictionary is still null before `Start` runs, when a call would throw.
- Aliasing between transform fields: each joint has its own bone. Two fields holding the same `Transform` are not modelled.
- Single-precision arithmetic: positions, rotations and factors are reals.
- The engine services `ScreenToWorldPoint`, `normalized`, `sqrMagnitude`, `LookRotation` and `Slerp` are arbitrary functions supplied with the `Engine` value. Only the clamping of the interpolation factor is modelled.
- `Time.deltaTime` is the parameter `dt`.
- Animation.InstanceAfter: Unity's `== null` is also true for an animator that has been destroyed, so a later animator can claim the slot after the instance is destroyed. The model's "never replaced" holds only while the instance is alive; destruction of the instance is not modelled.
- `Destroy(gameObject)` only records the animator as destroyed. The rest of its lifecycle is not modelled, and neither is the per-frame `Update` that calls `UpdateAllRotations`.
- MultiPose.MoveNetMultiPoseSample.Update: the animator is passed in. A null `MoveNetAnimator.Instance`, which would throw, is not modelled. The drawing of every pose with `drawer.DrawPose` is not modelled either.
- `MoveNetPose.JOINT_COUNT` is taken to be 17, the number of MoveNet keypoints. `MoveNetPose` and `MoveNetMultiPose` are not part of this model.
- MultiPose.MoveNetMultiPoseSample.Invoke: a synchronous run that throws (`moveNet.Run`) leaves `poses` as it was in the source. In the model, a synchronous frame always replaces the poses with its results.
- MultiPose.MoveNetMultiPoseSample.OnTextureUpdate: `runBackground` is a serialized field that can change at run time. The model fixes it for the component's lifetime, so it does not capture that switching to synchronous mode while a background task is outstanding runs a second inference alongside it.
- UniTask internals and real asynchrony: the task is a `busy` flag plus explicit completion and cancellation events. A run that faults is treated like a cancelled one, which leaves the poses alone. The cancellation token is the source of cancellation events.
- `Start`, `OnDestroy` and listener registration. The texture source's update event is the `FrameArrives` event.
- `VirtualTextureSource.cs` (frame acquisition and GPU work) and `SuperResolutionSample.cs` (a wrapper over an external class and a compute shader) are not part of this model.
