# DexFull model

A Dafny model of the algorithms and hand-written protocols of the DexFull teleoperation stack, with proofs of
what they guarantee. `dafny verify dfyconfig.toml` checks the whole project.

An operator's head, wrists and hands arrive as OpenXR poses. They are brought into the robot's basis, made
relative to the head or to the session's origin, turned into quaternions for Unity and into joint targets for
arms and hands (Arithmetic, LinearAlgebra, PoseExtraction, TeleWrapper, TeleArrays, TeleMeaning, RootPose,
RootPoseRuns, RootPosePositions, RootPoseMeaning, MimicJoints, Retargeting, RetargetingFrames). Around these
algorithms run small concurrent protocols: a C++ real-time publisher, a triple buffer for images, an asynchronous
IK worker, the control process with its command thread, the WebSocket sender, the VR frame pipeline across the
process boundary, and the episode writer (Publisher, PublisherLife, TripleRing, IkWorker, IkLife, CommandLoop,
StartGate, SessionLife, WsSender, SenderPriority, VrCodec, VrPipeline, VrMeaning, EpisodeWriter). A restart limiter
and a deadline rule keep the rest in check (RestartLimiter, RestartPromptness, Pacing, PacingLife), and timing
metadata travels inside JPEG files (JpegMetadata).

Safety over all runs is stated beside each machine; the modules named after Meaning, Life, Gate, Priority,
Promptness and Frames say what the code does when it should: the values themselves, in the terms of the inputs, and
that what is due happens.

Concurrent code is a total step function over the atomic actions of its threads: an action that is not enabled
changes nothing, so that a theorem about all event sequences is one about all interleavings. Where the source
has a class, a class with the same fields carries the methods, each proved to perform exactly its steps. Ghost
logs in the state record what was handed, sent, solved or written.

Some promises hold only under a condition. Each is stated with its exact condition:

- the wrist pose ignores the operator's heading exactly when the head's forward axis is not vertical;
- root positions ignore the odometry frame exactly when the first forward axis is not vertical;
- the Jacobian obeys the chain rule exactly when no target joint is listed twice;
- joint limits survive the low-pass filter exactly for weights in [0, 1];
- the newest VR frame can be dropped in favour of an older one, in exactly one situation besides clearing;
- VR payloads are strictly increasing exactly when the previous generation's monitor thread is gone;
- an episode file is well formed exactly when no item fails to dump after another was written;
- deadlines stay on their grid exactly when no fire is more than two intervals late;
- Python and C# find the same metadata exactly when no segment end exceeds the 32-bit range.

## Model

| member | source | states |
|---|---|---|
| PoseExtraction.ExtractionTotal | dexfull/control/session.py:365-402 | The four-branch extraction never divides by zero and never rejects its own norm: on every 4x4 matrix, rotation or not, it returns the position and a unit quaternion |
| PoseExtraction.ExtractionCorrect | dexfull/control/session.py:365-402 | The quaternion returned stands for the matrix exactly when the matrix is a rotation |
| PoseExtraction.ExtractionRoundTrip | dexfull/control/session.py:365-402 | Extracting the matrix of a unit quaternion gives that quaternion back up to sign, in all four branches |
| TeleWrapper.HeadPoseExtraction | dexfull/xr/tv_wrapper.py:324 | A head pose with position p and unit quaternion (w, x, y, z) leaves basis change and extraction as (-pz, -px, py) and plus or minus (w, -z, -x, y) |
| TeleWrapper.FastMatInvInverse | dexfull/xr/tv_wrapper.py:77-81 | `fast_mat_inv` is a two-sided inverse on rigid matrices |
| TeleWrapper.SafeMatUpdateRigid | dexfull/xr/tv_wrapper.py:70-75 | A rigid matrix never triggers the singular-matrix fallback |
| TeleWrapper.YawIsRotZ | dexfull/xr/tv_wrapper.py:89-101 | Away from the vertical the yaw helper returns the rotation about Z by the heading, and none of its divisions is by zero |
| TeleWrapper.YawEquivariant | dexfull/xr/tv_wrapper.py:89-101 | Turning the head about Z turns the extracted yaw by the same angle |
| TeleWrapper.HandPointInvariant | dexfull/xr/tv_wrapper.py:351-376 | A hand landmark in the arm frame is the same after any rigid motion of the world |
| TeleWrapper.HandPointAtWrist | dexfull/xr/tv_wrapper.py:362-363 | A landmark at the wrist is the origin of the arm frame |
| TeleWrapper.HandsInvariant | dexfull/xr/tv_wrapper.py:351-376 | All hand landmarks returned are the same after any rigid motion applied to head, arms and hands together |
| TeleWrapper.WristPoseInvariant | dexfull/xr/tv_wrapper.py:103-119 | In `head_yaw` mode the wrist pose given to IK ignores every common vertical rotation plus translation, when the head has a heading |
| TeleWrapper.WristPoseTurns | dexfull/xr/tv_wrapper.py:95-96 | Without a heading a common half turn changes the wrist pose: the identity fallback breaks the invariance |
| TeleWrapper.WristPoseInvariantIff | dexfull/xr/tv_wrapper.py:89-119 | The wrist pose is invariant under all common vertical rotations and translations exactly when the projected forward axis is longer than 1e-6 |
| TeleArrays.FastMatInverse | dexfull/xr/tv_wrapper.py:77-81 | The slice assignments build the inverse pose in a fresh homogeneous matrix |
| TeleArrays.TransformArm | dexfull/xr/tv_wrapper.py:103-119 | The copies and slice assignments compute head-relative, waist-shifted wrist poses in both reference modes without touching their arguments |
| TeleMeaning.ForwardWrist | dexfull/xr/tv_wrapper.py:103-119 | A wrist `forward` ahead of the head, `left` to its left and `up` above it reaches IK as (forward + 0.15, left, up + 0.45), in both reference modes |
| TeleMeaning.WristValue | dexfull/xr/tv_wrapper.py:103-119 | The wrist pose in terms of the operator: position relative to the head along the projected gaze (or the world axes in `head_position` mode), its axes seen the same way |
| TeleMeaning.WristAxes | dexfull/xr/tv_wrapper.py:121-130 | With hand tracking IK receives x from wrist to fingers, y out of the back of the left hand and out of the right palm, z towards the index finger |
| TeleMeaning.TranslationInvariant | dexfull/xr/tv_wrapper.py:112-113 | In `head_position` mode no common translation changes either wrist pose |
| TeleMeaning.Landmarks | dexfull/xr/tv_wrapper.py:351-379 | Every landmark of both hands is its components along back of the hand, away from the fingers, and right, seen from the wrist; 25 zeros each when one arm matrix is singular |
| TeleMeaning.HeadValue | dexfull/xr/tv_wrapper.py:324 | The head pose sent on: where the head looks, its left and its top, and its position, in the basis of the robot |
| TeleMeaning.HeadFallback | dexfull/xr/tv_wrapper.py:303 | A singular head matrix is replaced by an upright head 1.5 m high and 0.2 m ahead, in all results |
| TeleMeaning.ArmFallbacks | dexfull/xr/tv_wrapper.py:310-340 | A singular arm matrix is replaced by an unrotated wrist 1.13 m high, 0.3 m ahead and 0.15 m to its side, without the initial-pose change |
| LinearAlgebra.QuatMatrixIsRotation | dexfull/control/session.py:365-402 | Quaternion matrices are right-handed orthonormal, the meaning used for extraction |
| LinearAlgebra.QuatUniqueUpToSign | dexfull/control/session.py:365-402 | Two unit quaternions with one matrix differ at most in sign |
| RootPose.RootPoseTransformer.Transform | dexfull/control/utils/root_pose.py:105-181 | The method with its in-place origin, filter and sign memory computes the step function of the state, including what a call that raises leaves behind |
| RootPose.RootPoseTransformer.Reset | dexfull/control/utils/root_pose.py:98-103 | Back to the state after construction |
| RootPose.RootPoseTransformer.AnchoredPosition | dexfull/control/utils/root_pose.py:120-156 | Heading, axis mapping and the three vertical modes of the position |
| RootPoseRuns.TransportLaws | dexfull/control/utils/root_pose.py:34-37 | The transport map to Unity is an involution that preserves norms, products and conjugates |
| RootPoseRuns.DeltasCompose | dexfull/control/utils/root_pose.py:158-172 | Transported deltas compose: 0 to k is j to k after 0 to j |
| RootPoseRuns.OutputsExactlyAccepted | dexfull/control/utils/root_pose.py:6-11 | A call succeeds exactly on a finite position with a finite non-zero quaternion, whatever came before |
| RootPoseRuns.RotationsRelativeToFirst | dexfull/control/utils/root_pose.py:158-181 | Every rotation of a run is a unit quaternion and, up to sign, the transport image of the current rotation times the inverse of the first accepted one |
| RootPoseRuns.RotationsContinuous | dexfull/control/utils/root_pose.py:174-179 | Consecutive rotations have a non-negative dot product, even when calls in between raised |
| RootPoseRuns.RunOrigin | dexfull/control/utils/root_pose.py:115-118 | The origin is the first accepted sample for the rest of the run |
| RootPoseRuns.DeltaTimesFirstIsCurrent | dexfull/control/utils/root_pose.py:164-172 | The received delta times the first rotation is the current rotation up to sign, the order in which Unity applies it |
| RootPosePositions.HeadingIsForwardAxis | dexfull/control/utils/root_pose.py:25-31 | The yaw terms are the floor components of the rotated forward axis |
| RootPosePositions.ForwardIsForward | dexfull/control/utils/root_pose.py:124-141 | Going forward and left of the initial heading arrives as right = -left and forward |
| RootPosePositions.HorizontalDistance | dexfull/control/utils/root_pose.py:120-140 | Horizontal distance from the origin is kept in every heading and axis mode |
| RootPosePositions.PositionsInvariant | dexfull/control/utils/root_pose.py:115-156 | With `initial` heading any yaw plus translation of the odometry world leaves every returned position unchanged, if the first forward axis has a heading |
| RootPosePositions.VerticalFrameDependent | dexfull/control/utils/root_pose.py:25-31 | With a vertical first forward axis, one metre east after a half turn is returned as one metre west |
| RootPosePositions.PositionsInvariantIff | dexfull/control/utils/root_pose.py:115-156 | Positions of all continuations are independent of the odometry frame exactly when the first accepted orientation has a heading |
| RootPosePositions.HeightBounded | dexfull/control/utils/root_pose.py:143-156 | In every vertical mode the height deviates from the pelvis height by no more than the largest height change seen |
| RootPoseMeaning.FilterConverges | dexfull/control/utils/root_pose.py:144-152 | After any run, while the rise over the first sample holds still outside the deadband, the returned height approaches pelvis height plus rise by the factor (1 - alpha) per accepted sample |
| RootPoseMeaning.JitterSuppressed | dexfull/control/utils/root_pose.py:145-146 | While the rise stays within the deadband, however it jitters, the returned height approaches the pelvis height by the same factor |
| RootPoseMeaning.FixedAndRelative | dexfull/control/utils/root_pose.py:143-156 | In `fixed` mode the height is the pelvis height, in `relative` mode pelvis height plus rise |
| RootPoseMeaning.AheadAndLeft | dexfull/control/utils/root_pose.py:120-141 | Over every run: a sample ahead of the first along the floor direction of its forward axis, and to the left of that, is returned as (-left, ahead), or (ahead, left) with raw axes |
| RootPoseMeaning.AlongOdometryAxes | dexfull/control/utils/root_pose.py:120-141 | With `odom_world` heading the same along the axes of the odometry frame |
| RootPoseMeaning.TransportSwapsAxes | dexfull/control/utils/root_pose.py:34-37 | The quaternion sent to Unity stands for the same rotation with the two horizontal axes swapped |
| RootPoseMeaning.SignOnlyWhenNeeded | dexfull/control/utils/root_pose.py:174-179 | The sign of a rotation is changed exactly when it would point away from the one returned before |
| RootPoseMeaning.AbsolutePasses | dexfull/control/utils/root_pose.py:111-113 | In `absolute` mode positions pass unchanged and rotations are normalised, up to sign |
| RootPosePositions.MemoryConverges | dexfull/control/utils/root_pose.py:144-152 | Under a constant target the error of the filter memory shrinks by exactly (1 - alpha) per accepted sample |
| MimicJoints.Index | dexfull/vendors/dex_retargeting/kinematics_adaptor.py:75 | `list.index`: the first position of a name, failing exactly on missing names |
| MimicJoints.Indices | dexfull/vendors/dex_retargeting/kinematics_adaptor.py:71-75 | The index arrays, failing exactly when a name is missing |
| MimicJoints.CreateAccepts | dexfull/vendors/dex_retargeting/kinematics_adaptor.py:54-89 | The constructor accepts exactly known joints, sources among the targets, mimic joints outside them, equal lengths and distinct mimic names |
| MimicJoints.CreateValid | dexfull/vendors/dex_retargeting/kinematics_adaptor.py:54-89 | What it accepts satisfies the index invariant the methods rely on |
| MimicJoints.CreateNames | dexfull/vendors/dex_retargeting/kinematics_adaptor.py:71-75 | Indices denote the named joints; target indices are distinct exactly when target names are |
| MimicJoints.ForwardQpos | dexfull/vendors/dex_retargeting/kinematics_adaptor.py:91-94 | The in-place gather and scatter computes the completed joint vector |
| MimicJoints.BackwardJacobian | dexfull/vendors/dex_retargeting/kinematics_adaptor.py:96-102 | The accumulating loop computes, row by row, the specified target Jacobian |
| MimicJoints.DistinctChainRule | dexfull/vendors/dex_retargeting/kinematics_adaptor.py:91-102 | backward_jacobian(J) dx = J (forward_qpos(q, x + dx) - forward_qpos(q, x)) for every J, q, x, dx, also when mimic joints share a source |
| MimicJoints.DuplicateBreaksChainRule | dexfull/vendors/dex_retargeting/kinematics_adaptor.py:97-101 | A target listed twice gets the derivative twice while only its last value moves the joint |
| MimicJoints.ChainRuleIff | dexfull/vendors/dex_retargeting/kinematics_adaptor.py:91-102 | The chain rule holds for all arguments exactly when no target joint is listed twice, which no constructor checks |
| MimicJoints.CompletedCoupled | dexfull/vendors/dex_retargeting/kinematics_adaptor.py:91-94 | forward_qpos establishes every mimic law and changes nothing else |
| MimicJoints.CompletedFixpoint | dexfull/vendors/dex_retargeting/kinematics_adaptor.py:91-94 | forward_qpos is idempotent and fixes exactly the vectors that obey the laws |
| Retargeting.Optimizer.Create | dexfull/vendors/dex_retargeting/optimizer.py:24-33 | The index loops: error exactly on a missing target, and fixed joints are all others |
| Retargeting.Optimizer.SetKinematicAdaptor | dexfull/vendors/dex_retargeting/optimizer.py:56-64 | Replaces the adaptor and takes its mimic joints out of the fixed ones, for any adaptor, also a second one |
| Retargeting.PartitionIff | dexfull/vendors/dex_retargeting/optimizer.py:56-64 | Afterwards every joint is exactly one of target, mimic and fixed if and only if no mimic joint is a target and the mimic joints of an earlier adaptor stay mimic joints |
| Retargeting.FirstAdaptorValid | dexfull/vendors/dex_retargeting/optimizer.py:56-64 | So the first adaptor, built for the same targets, keeps the optimizer valid |
| Retargeting.Optimizer.SetJointLimit | dexfull/vendors/dex_retargeting/optimizer.py:47-51 | Bounds are the limits widened by 1e-3, or an error on a wrong shape |
| Retargeting.LPFilter.Next | dexfull/vendors/dex_retargeting/optimizer_utils.py:7-13 | First vector passes, later ones are blended into the memory |
| Retargeting.SeqRetargeting.constructor | dexfull/vendors/dex_retargeting/seq_retarget.py:13-41 | The solver box is the widened limits of the targets; the start point is their middle |
| Retargeting.SeqRetargeting.Retarget | dexfull/vendors/dex_retargeting/seq_retarget.py:106-126 | Fallback, array fill, mimic completion and filter compute the step of the session |
| Retargeting.SeqRetargeting.Assemble | dexfull/vendors/dex_retargeting/seq_retarget.py:117-122 | The zeroed array is filled with fixed, target and mimic joints in this order |
| Retargeting.SeqRetargeting.SetQpos | dexfull/vendors/dex_retargeting/seq_retarget.py:128-130 | The start point becomes the gathered targets |
| Retargeting.SeqRetargeting.Reset | dexfull/vendors/dex_retargeting/seq_retarget.py:144-147 | The start point is reset; the filter keeps its memory |
| Retargeting.FixedJoints | dexfull/vendors/dex_retargeting/optimizer.py:77-80 | A call raises exactly on a wrong number of fixed joints and then changes nothing; without a filter fixed joints pass through |
| Retargeting.JointLaw | dexfull/vendors/dex_retargeting/seq_retarget.py:106-126 | Every vector any session returns obeys every mimic law, for any filter weight, across resets, warm starts and solver failures |
| Retargeting.JointLimits | dexfull/vendors/dex_retargeting/seq_retarget.py:106-126 | With limits every target joint of every returned vector is within its limits widened by epsilon |
| Retargeting.FilterConverges | dexfull/vendors/dex_retargeting/optimizer_utils.py:12 | After any session, while the solution holds still, the error of every joint that the session returns shrinks by exactly (1 - alpha) per frame, across raising calls, resets, warm starts and solver failures |
| Retargeting.JointLimitsIff | dexfull/vendors/dex_retargeting/retargeting_config.py:206-209 | Limits hold in every session exactly for the weights in [0, 1] for which the configuration builds a filter |
| RetargetingFrames.SolutionReturned | dexfull/vendors/dex_retargeting/seq_retarget.py:106-126 | Without a filter every target joint is what the solver returned |
| RetargetingFrames.FallbackReturned | dexfull/vendors/dex_retargeting/optimizer.py:84-89 | A call whose solver fails returns the start point clipped to the limits: the one set, the last solution, or the middle of the limits after a reset |
| RetargetingFrames.FreshFallback | dexfull/vendors/dex_retargeting/seq_retarget.py:31-32 | A new session starts from the middle of the limits |
| RetargetingFrames.FilterIsOutside | dexfull/vendors/dex_retargeting/seq_retarget.py:115-126 | The filter never feeds back: start points and counts are those of a session without one |
| RetargetingFrames.FirstFramePasses | dexfull/vendors/dex_retargeting/optimizer_utils.py:7-13 | The first frame of a session or after a filter reset is returned as without a filter |
| RetargetingFrames.CountsReturned | dexfull/vendors/dex_retargeting/seq_retarget.py:144-147 | The counter counts the frames returned since the last reset |
| Publisher.HandOffExact | dexfull/hand_drivers/brainco/native/include/dds/Publisher.h:69-155 | In every interleaving handed = written + dropped + copied-unwritten + slot, each of the last three at most one message; dropped is empty until `stop`; written is always a prefix of handed |
| Publisher.MutualExclusion | dexfull/hand_drivers/brainco/native/include/dds/Publisher.h:69-111 | The message is never written while it is copied, nor while one is waiting to be copied |
| Publisher.Delivered | dexfull/hand_drivers/brainco/native/include/dds/Publisher.h:132-153 | While the real-time thread stays away everything handed over is written within |message| + 11 actions of the loop |
| Publisher.RealTimePublisher.TryLock | dexfull/hand_drivers/brainco/native/include/dds/Publisher.h:69-82 | Succeeds exactly on a free mutex in the real-time turn; the three atomic actions in order |
| Publisher.RealTimePublisher.UnlockAndPublish | dexfull/hand_drivers/brainco/native/include/dds/Publisher.h:87-91 | Turn first, then mutex |
| Publisher.RealTimePublisher.PublishOnce | dexfull/hand_drivers/brainco/native/include/dds/Publisher.h:132-153 | One undisturbed round is |message| + 8 actions that write the message and give the turn back |
| PublisherLife.RealtimeRound | dexfull/hand_drivers/brainco/native/include/dds/Publisher.h:69-91 | With the lock free in the real-time turn a round hands over the message as it was written |
| PublisherLife.RefusedRound | dexfull/hand_drivers/brainco/native/include/dds/Publisher.h:69-82 | Outside the real-time turn, or with the lock taken, a round changes nothing |
| PublisherLife.AbandonedRound | dexfull/hand_drivers/brainco/native/include/dds/Publisher.h:111 | A round ended by `unlock` keeps the words written and hands over nothing |
| PublisherLife.Starts | dexfull/hand_drivers/brainco/native/include/dds/Publisher.h:127-130 | The first two actions of the loop open the real-time turn |
| PublisherLife.RunningUntilEnded | dexfull/hand_drivers/brainco/native/include/dds/Publisher.h:127-154 | `is_running` holds in every run from the first to the last action of the loop |
| PublisherLife.StopEnds | dexfull/hand_drivers/brainco/native/include/dds/Publisher.h:132-154 | From every state of a run, with the real-time thread away, the loop ends within |message| + 10 actions after `stop` |
| TripleRing.ReadsAreLatest | dexfull/imaging/image_client.py:54-67 | Every read returns the value that was latest when it held the lock, `None` exactly before the first write, and reads never go back in time |
| TripleRing.FetchUndisturbed | dexfull/imaging/image_client.py:62-67 | Between picking a slot and the unlocked fetch any number of writer steps leave the picked value in place |
| TripleRing.TripleRingBuffer.Write | dexfull/imaging/image_client.py:54-60 | The array method performs the five steps of the machine and keeps the slot invariant |
| TripleRing.TripleRingBuffer.Read | dexfull/imaging/image_client.py:62-67 | Undisturbed, it returns the last value written |
| IkWorker.SequencesOrdered | dexfull/control/ik_worker.py:74-151 | latest result < in flight < pending = newest submitted, in every run |
| IkWorker.TargetsConserved | dexfull/control/ik_worker.py:74-151 | Across all drains submitted = solved + failed + replaced + pending + in flight + discarded, each target counted once |
| IkWorker.ResultsIncrease | dexfull/control/ik_worker.py:92-97 | Results are published, and seen by the control loop, in strictly increasing order, each at most once |
| IkWorker.DrainedAverages | dexfull/control/ik_worker.py:99-107 | A drained average solve time is between 0 and the drained maximum |
| IkWorker.ClosedStaysIdle | dexfull/control/ik_worker.py:109-127 | After `close` nothing is submitted or taken; at most the solve under way still publishes |
| IkLife.SubmittedIsSolved | dexfull/control/ik_worker.py:81-151 | A target submitted to an idle worker is solved, counted with its time, and seen by the control loop |
| IkLife.NewestWaits | dexfull/control/ik_worker.py:81-90 | While one target is solved only the newest of those submitted waits, the others count as replaced |
| IkLife.FailedIsCounted | dexfull/control/ik_worker.py:130-142 | A failed solve is counted, may raise the maximum, and leaves the latest result |
| IkLife.CloseEnds | dexfull/control/ik_worker.py:109-127 | After a close the worker ends, with a solve under way published first |
| IkLife.StartsAgain | dexfull/control/ik_worker.py:62-72 | A closed worker refuses targets until it is started again; sequences go on |
| IkLife.StartsOnce | dexfull/control/ik_worker.py:62-66 | A start while a worker is alive changes nothing, not even a close under way |
| IkLife.AcceptsBeforeStart | dexfull/control/ik_worker.py:81-90 | A worker that was never started accepts targets and leaves them for its thread |
| IkLife.AverageIsMean | dexfull/control/ik_worker.py:99-107 | The average handed out times the number of solves is their total time |
| IkWorker.LatestIkWorker.Submit | dexfull/control/ik_worker.py:81-90 | Replaces the pending target and returns the newest sequence; nothing after `close` |
| IkWorker.LatestIkWorker.Start | dexfull/control/ik_worker.py:62-72 | No second worker while one is alive |
| IkWorker.LatestIkWorker.LatestAfter | dexfull/control/ik_worker.py:92-97 | The latest result, only when newer than the given sequence |
| IkWorker.LatestIkWorker.Poll | dexfull/control/session.py:1181-1184 | The control loop remembers the sequence it got and never sees one twice |
| IkWorker.LatestIkWorker.DrainStats | dexfull/control/ik_worker.py:99-107 | Returns and clears the statistics; the average is at most the maximum |
| IkWorker.LatestIkWorker.Close | dexfull/control/ik_worker.py:109-113 | Stops and discards the pending target |
| IkWorker.LatestIkWorker.Next | dexfull/control/ik_worker.py:122-128 | Takes the pending target, or ends the thread when stopped |
| IkWorker.LatestIkWorker.Finish | dexfull/control/ik_worker.py:130-151 | Publishes or counts the failure under the lock |
| CommandLoop.StopNeverLost | dexfull/control/runtime.py:142-191 | Whatever the timing of a received stop: nothing else is applied after it; received before the second check of `run`, `run` returns early; else STOP holds from its application until `run` is left |
| CommandLoop.StopApplied | dexfull/control/runtime.py:142-166 | Once the module is published, in any interleaving, eight actions of the command thread apply a received stop, unless the main thread has left the control loop before |
| CommandLoop.RunLeft | dexfull/control/session.py:978-1027 | Then, in any interleaving, the main thread leaves the control loop within six of its own actions |
| CommandLoop.StopEndsControl | dexfull/control/runtime.py:142-191 | Both together: after a stop received in any run, eight actions of the command thread and then six of the main thread, however interleaved, leave the control loop |
| CommandLoop.CommandsInOrder | dexfull/control/runtime.py:155-170 | Without a stop, start, pause and resume are applied in the order received and none is lost |
| StartGate.FollowingIsAsked | dexfull/control/session.py:976-1027 | In every run, whatever flags an earlier session left: the robot follows only after a start or resume was received, or with the stop event set |
| StartGate.NeverUnasked | dexfull/control/session.py:978 | Without a received start, resume or stop and without a pipe failure the robot never follows |
| StartGate.FlagReadBefore | dexfull/control/session.py:978 | In every run that follows, the waiting loop of this session has read START or STOP as set |
| StartGate.FollowsWhenAsked | dexfull/control/session.py:978 | With START set and kept, in any interleaving, the main thread leaves the waiting loop for RUNNING within its next two actions |
| StartGate.PauseSuspends | dexfull/control/session.py:1027-1033 | While PAUSED is set the main loop makes no pass over the robot, in any interleaving |
| StartGate.HeldBackUntilReady | dexfull/control/runtime.py:167-168 | No start, pause or resume is applied before the session is ready, so that the flag resets of `run` lose none |
| StartGate.CommandsTaken | dexfull/control/runtime.py:142-172 | In any interleaving without a stop, six actions of the command thread apply at least one more pending command |
| StartGate.EndsClean | dexfull/control/runtime.py:200-207 | In every run, when the clean-up gets there, stop event and command stop are set and the module is withdrawn |
| StartGate.EndReports | dexfull/control/runtime.py:193-207 | A session that ends through an exception is reported as ERROR in the end, any other as STOPPED |
| SessionLife.StartsUp | dexfull/control/session.py:633-978 | Left alone, a session imports its module, clears the flags an earlier one left, and waits for START in state READY after eleven actions |
| SessionLife.Follows | dexfull/control/session.py:978-1033 | Left alone with START set it announces RUNNING and makes its passes unless paused; a stop found there ends it |
| SessionLife.KeepsWaiting | dexfull/control/session.py:978 | Without START and STOP it keeps waiting |
| SessionLife.QuitStops | dexfull/control/session.py:1145-1147 | The quit button clears START, sets STOP and ends the session with its next test |
| SessionLife.InterruptionReports | dexfull/control/runtime.py:190-206 | Wherever an exception or a keyboard interrupt strikes in a run, the session ends and reports ERROR for an exception and STOPPED for an interrupt |
| SessionLife.Finishes | dexfull/control/runtime.py:200-207 | In any interleaving the clean-up is done within nine actions of the main thread |
| SessionLife.AppliesAll | dexfull/control/runtime.py:128-140 | Left alone the command thread performs all writes of a command and goes on with the next, or ends after a stop |
| SessionLife.TakesFirst | dexfull/control/runtime.py:169-170 | The first pending command is the one applied |
| SessionLife.WriteOrder | dexfull/control/runtime.py:128-140 | Start, pause and resume announce their state after all flags are written, stop before any |
| SessionLife.PipeFailureStops | dexfull/control/runtime.py:82-91 | A failed receive or send sets the stop event |
| SessionLife.CommandThreadEnds | dexfull/control/runtime.py:142-166 | Once the command stop is set and the module withdrawn the command thread ends, whatever it still receives |
| SessionLife.UntouchedBeforeImport | dexfull/control/runtime.py:158-163 | In every run no command, not even a stop, touches the flags of the session before its module is published |
| CommandLoop.CommandEffects | dexfull/control/session.py:231-256 | The flags each request leaves |
| CommandLoop.ControlProcess.ApplyCommand | dexfull/control/runtime.py:128-140 | Undisturbed, the function performs exactly the writes of the machine, in order |
| CommandLoop.ControlProcess.RequestStart | dexfull/control/session.py:231-236 | Start clears stop and pause |
| CommandLoop.ControlProcess.RequestPause | dexfull/control/session.py:239-242 | Pause only pauses |
| CommandLoop.ControlProcess.RequestResume | dexfull/control/session.py:245-248 | Resume starts and unpauses but never clears stop |
| CommandLoop.ControlProcess.RequestStop | dexfull/control/session.py:251-256 | Stop clears start and pause |
| CommandLoop.ControlProcess.SetState | dexfull/control/runtime.py:75-91 | A failed send sets the stop event |
| WsSender.ControlExact | dexfull/bridge/ws_server.py:510-528 | accepted = sent + in hand + queued, in FIFO order, and the drop counter is exactly offered minus accepted |
| WsSender.FramesInOrder | dexfull/bridge/ws_server.py:581-626 | VR and robot frames are sent in strictly increasing broadcast order, through the requeue path too |
| WsSender.NewestLostIff | dexfull/bridge/ws_server.py:594-606 | The newest VR frame is lost exactly when streaming is cleared while it is queued, or when a control message and an older frame were taken in the same turn while it was queued |
| WsSender.NewestFrameLost | dexfull/bridge/ws_server.py:594-606 | A run that never clears streaming in which the newest frame is overwritten by the older one put back |
| SenderPriority.TopTakes | dexfull/bridge/ws_server.py:554-575 | At the top of the loop the first control message is sent next, a VR frame only if there is none, a robot frame only if there is neither |
| SenderPriority.WaitSends | dexfull/bridge/ws_server.py:581-626 | When a wait ends a control message taken is sent, else a VR frame, else a robot frame, and frames taken in vain are queued again |
| SenderPriority.BroadcastReplaces | dexfull/bridge/ws_server.py:761-801 | A broadcast frame replaces the queued one and is the next of its kind to be sent; a clear empties its queue only |
| SenderPriority.OfferDropsWhenFull | dexfull/bridge/ws_server.py:662-666 | A control message is dropped, and counted, exactly when fifty are queued |
| SenderPriority.ControlOvertakes | dexfull/bridge/ws_server.py:554-626 | From any state with a pending control message, in every interleaving, at most one more frame is sent before a control message is |
| SenderPriority.VrOvertakes | dexfull/bridge/ws_server.py:554-626 | At most one robot frame is sent before a pending VR frame is, while VR streaming is not cleared |
| SenderPriority.RoundSends | dexfull/bridge/ws_server.py:554-626 | Left alone, the sender sends the most urgent kind of what is pending within one round, from every state |
| WsSender.ClientConnection.QueuePayload | dexfull/bridge/ws_server.py:662-666 | A full control queue counts a drop, otherwise the message is appended |
| WsSender.ClientConnection.QueueLatestVrInput | dexfull/bridge/ws_server.py:782-793 | The queue holds the new frame only, and nothing is ever counted as dropped |
| WsSender.ClientConnection.QueueLatestRobotDatas | dexfull/bridge/ws_server.py:761-772 | The same for robot frames |
| WsSender.ClientConnection.TryNext | dexfull/bridge/ws_server.py:557-566 | Control before VR before robot |
| WsSender.ClientConnection.PickDone | dexfull/bridge/ws_server.py:592-620 | Priority among the finished reads, putting the others back |
| WsSender.ClientConnection.Requeue | dexfull/bridge/ws_server.py:649-660 | The held frame replaces whatever was queued |
| WsSender.AsyncQueue.Clear | dexfull/bridge/ws_server.py:795-801 | The loop ends with an empty queue |
| VrCodec.DecodeEncode | dexfull/control/process_channel.py:84-144 | Decoding an encoded frame gives the frame with non-finite controller values as 0 and a two-axis thumbstick, so the same frame exactly when it was clean |
| VrCodec.EncodeDecode | dexfull/control/process_channel.py:84-144 | Re-encoding a decoded frame is accepted and gives the same 40 values |
| VrMeaning.CrossesIff | dexfull/control/process_channel.py:84-98 | Exactly the frames with a positive sequence, a finite timestamp and three poses of seven finite numbers cross |
| VrMeaning.FrameArrivesAs | dexfull/control/process_channel.py:84-144 | A frame arrives with its poses, its buttons and every controller value, 0 for one that is missing or not finite |
| VrCodec.EncodeFrame | dexfull/control/process_channel.py:84-117 | The loops accept exactly positive sequences with finite timestamps and three finite poses, and lay out the 40 values |
| VrCodec.DecodeFrame | dexfull/control/process_channel.py:120-144 | The moving offset reads the same layout |
| VrPipeline.StreamExact | dexfull/control/runtime.py:411-424 | With the previous monitor gone, payloads reach the stream in strictly increasing source sequence, each is the clean form of the frame the child made under that sequence, and none is rejected |
| VrPipeline.DoubleReadRepeats | dexfull/control/runtime.py:461-463 | A monitor thread left over from the previous generation makes one frame appear twice |
| VrPipeline.StreamIncreasingIff | dexfull/control/runtime.py:403-424 | Strictly increasing in every run exactly when no monitor of the previous generation is left |
| VrMeaning.SnapshotOnce | dexfull/bridge/streamer.py:51-62 | A snapshot is looked at once and counted as valid exactly when its three poses are seven finite numbers each |
| VrMeaning.FrameReachesStream | dexfull/control/runtime.py:411-424 | From every state of a run a sample that can cross is streamed once child, parent monitor and streamer have moved |
| VrMeaning.ClearedHides | dexfull/common/state_bus.py:144-148 | After a clear nothing is streamed and sequences go on |
| VrMeaning.ReadsOnce | dexfull/control/process_channel.py:74-82 | Each monitor reads a shared frame once |
| VrMeaning.ValidCounted | dexfull/bridge/streamer.py:51-62 | In every run the valid counter moves with the payloads streamed |
| VrPipeline.LatestVrSharedState.Publish | dexfull/control/process_channel.py:60-72 | Writes an accepted frame with its sequence, else nothing |
| VrPipeline.LatestVrSharedState.ReadAfter | dexfull/control/process_channel.py:74-82 | A decoded frame only when newer |
| VrPipeline.LatestVrSharedState.Clear | dexfull/control/process_channel.py:52-58 | All 40 values, sequence and timestamp are zero |
| VrPipeline.LatestStateBus.PublishVr | dexfull/common/state_bus.py:61-71 | One sequence further with the new value |
| VrPipeline.LatestStateBus.ClearChannel | dexfull/common/state_bus.py:144-148 | Drops the value and keeps the sequence |
| VrPipeline.DirectStateStreamer.NextVrPayload | dexfull/bridge/streamer.py:51-62 | Each bus snapshot at most once, malformed ones counted |
| EpisodeWriter.FinishedEpisodes | dexfull/control/utils/episode_writer.py:90-221 | In every interleaving each finished file has its footer last, holds every successfully processed item added before the save, once, in order and in its own episode, and is well formed exactly when no item failed to dump after another was written |
| EpisodeWriter.WellFormedIff | dexfull/control/utils/episode_writer.py:193-197 | header, items joined by single separators, footer: exactly without a dangling separator, which json.dumps leaves when it raises after the separator was written |
| EpisodeWriter.DumpFailureMalforms | dexfull/control/utils/episode_writer.py:193-197 | A run in which json.dumps rejects the second item finishes a file that ends in a separator and the footer, which is not well formed |
| EpisodeWriter.WrittenInOrder | dexfull/control/utils/episode_writer.py:129-144 | Written items are in index order and belong to their episode |
| EpisodeWriter.WrittenExactly | dexfull/control/utils/episode_writer.py:163-197 | An item is in the file exactly when it was processed successfully |
| EpisodeWriter.SaveCompletes | dexfull/control/utils/episode_writer.py:146-161 | A requested save is completed by the worker alone, whatever items fail, within a number of actions fixed by the queue length |
| EpisodeWriter.Writer.CreateEpisode | dexfull/control/utils/episode_writer.py:98-127 | Refused while a save is pending, else header, first-item flag and availability in this order |
| EpisodeWriter.Writer.AddItem | dexfull/control/utils/episode_writer.py:129-144 | The next index is queued |
| EpisodeWriter.Writer.SaveEpisode | dexfull/control/utils/episode_writer.py:205-209 | Only sets the flag |
| EpisodeWriter.Writer.ProcessItemData | dexfull/control/utils/episode_writer.py:163-197 | Separator, dump and first-item flag in this order, for every failure |
| EpisodeWriter.Writer.FinishSave | dexfull/control/utils/episode_writer.py:212-220 | Footer, then flags |
| RestartLimiter.ImmediateRestartsLimited | dexfull/bridge/process_manager.py:321-339 | Any window shorter than min(restart window, stable reset) that ends in an immediate restart holds at most `max_restarts` detected crashes |
| RestartPromptness.DegradedOnlyAbove | dexfull/bridge/process_manager.py:321-339 | In every run a detected crash is restarted at once unless it is the last of more than `max_restarts` crashes within the window, those remembered before the start included |
| RestartPromptness.FirstCrashesImmediate | dexfull/bridge/process_manager.py:326-339 | So a process started without a record of crashes is restarted at once after its first `max_restarts` crashes |
| RestartPromptness.LoopRevives | dexfull/bridge/process_manager.py:546-558 | One turn of the health loop whose start succeeds leaves the process running, unless its newest crash is still cooling down, in which case nothing is started |
| RestartPromptness.FailedStartIsFatal | dexfull/bridge/process_manager.py:117-176 | A turn whose start fails, or a crash without automatic restarts, ends FATAL without a restart |
| RestartPromptness.RequestedStopIsNoCrash | dexfull/bridge/process_manager.py:282-308 | An exit that was asked for is not counted, drops a cooldown, and nothing is restarted until the process is started again |
| RestartPromptness.StateFollowsChild | dexfull/bridge/process_manager.py:289-297 | Without a child the process is stopped, and a child that lives is running, whatever the state said before |
| RestartPromptness.StableForgives | dexfull/bridge/process_manager.py:297-305 | After a run that was seen stable the next crash is restarted at once, however many there were before |
| RestartLimiter.CooldownsSpaced | dexfull/bridge/process_manager.py:282-287 | A cooldown retry is at least `degraded_retry_seconds` after every earlier restart |
| RestartLimiter.RestartsBounded | dexfull/bridge/process_manager.py:543-563 | In every run, whoever checks besides the health loop, all restarts in a span L shorter than both windows number at most max_restarts + floor(L / D) + 1 |
| RestartLimiter.ExitsCountedOnce | dexfull/bridge/process_manager.py:310-326 | Each exit is counted at most once, each restart answers one counted crash, and restart_count is the length of the deque |
| RestartLimiter.ManagedProcess.CheckHealth | dexfull/bridge/process_manager.py:268-340 | The method computes the specified check, with the crash it detected |
| RestartLimiter.ManagedProcess.CheckExited | dexfull/bridge/process_manager.py:310-339 | Counted once, then degraded exactly above max_restarts |
| RestartLimiter.ManagedProcess.RecordCrash | dexfull/bridge/process_manager.py:323-326 | The loop drops exactly the crashes outside the window |
| RestartLimiter.ManagedProcess.StartProcess | dexfull/bridge/process_manager.py:117-176 | Running with a fresh start time, or fatal |
| RestartLimiter.ManagedProcess.HealthTurn | dexfull/bridge/process_manager.py:546-558 | Check and restart in one turn |
| Pacing.FiresSpaced | dexfull/app.py:289-292 | A fire and the n-th fire after it are at least (n - 2) intervals apart |
| Pacing.BurstOfThree | dexfull/app.py:289-292 | The bound is attained: three fires at one instant |
| Pacing.GridIff | dexfull/app.py:289-292 | Deadlines stay on the grid d0 + k * interval exactly when no fire is more than two intervals after its grid point |
| PacingLife.LateFireWaits | dexfull/app.py:289-292 | A fire at most two intervals late keeps the grid; after a later one the next fire is at least one interval away |
| PacingLife.RoundFires | dexfull/app.py:156-166 | In one round each stream fires exactly when it is enabled and due, VR unless a due robot part raised before it |
| Pacing.PumpTicks | dexfull/control/image_pump.py:58-67 | The fires of the pump loop over any clock readings form a run of the rule |
| Pacing.StreamsPaced | dexfull/app.py:134-168 | Both streams of the two-deadline loop are runs of the rule in every run, whatever raises |
| Pacing.SkipsTakeTime | dexfull/app.py:156-168 | m VR rounds skipped in a row because the robot part raised mean that VR waited at least m - 3 robot intervals |
| Pacing.StreamLoop.Iterate | dexfull/app.py:142-168 | One round: which parts run and what the deadlines become |
| JpegMetadata.EncodedSegments | dexfull/imaging/timestamp_protocol.py:26-55 | The encoded file is a JPEG whose segments are one APP15 segment followed by exactly those of the original |
| JpegMetadata.RoundTrip | dexfull/imaging/timestamp_protocol.py:58-87 | Extracting gives back the encoded metadata, field by field that of the frame, also when the file already held some: the newest wins |
| JpegMetadata.EncodeFailsIff | dexfull/imaging/timestamp_protocol.py:29-52 | Encoding fails exactly on a missing SOI and on metadata that does not fit a segment |
| JpegMetadata.EncodeTimestampedJpeg | dexfull/imaging/timestamp_protocol.py:26-55 | The concatenation is the specified encoding |
| JpegMetadata.WalkSegments | dexfull/imaging/timestamp_protocol.py:63-87 | The loop stays in bounds and ends on every byte string |
| JpegMetadata.ExtractTimestampMetadata | dexfull/imaging/timestamp_protocol.py:58-87 | The loop returns the metadata of the first metadata segment of the independent segment list |
| JpegMetadata.PlaceIsFirstJson | dexfull/imaging/timestamp_protocol.py:63-86 | The offset walk finds the first metadata segment of the segment list |
| JpegMetadata.SamePlaceIff | integrations/unity/TeleimagerTimestampMetadata.cs:37-77 | On every array .NET can hold, Python and C# locate the same payload exactly when no segment end exceeds the 32-bit range |
| JpegMetadata.ShortNeverOverflows | integrations/unity/TeleimagerTimestampMetadata.cs:49-52 | Arrays shorter than 2^31 - 65536 never do |
| JpegMetadata.UnityAcceptsIff | integrations/unity/TeleimagerTimestampMetadata.cs:62-67 | Unity accepts a frame encoded in Python, of any size .NET can hold, with the same metadata, exactly when its capture time is positive |
| JpegMetadata.ParsersDisagree | integrations/unity/TeleimagerTimestampMetadata.cs:49-52 | They do differ: on a file of the greatest .NET size Python finds nothing and C# reads out of range |
| JpegMetadata.FoundNeverOverflows | integrations/unity/TeleimagerTimestampMetadata.cs:49-52 | A payload that Python finds is never behind a segment end beyond the 32-bit range, so C# finds it too |
| JpegMetadata.AcceptsOnlyProtocol | integrations/unity/TeleimagerTimestampMetadata.cs:53-68 | Whatever the file, Unity accepts nothing but metadata of this protocol with a positive capture time, from the text behind the magic of an APP15 segment |
| JpegMetadata.HasMagic | integrations/unity/TeleimagerTimestampMetadata.cs:80-90 | The comparison loop, with reads outside the array |
| JpegMetadata.TryParse | integrations/unity/TeleimagerTimestampMetadata.cs:31-78 | The loop with 32-bit offsets computes the specified outcome |

## Left out

- DDS, ZMQ, WebRTC, sockets, TLS, subprocess spawning, camera capture, the Vuer UI, rerun logging and CSV recording are inputs or outcomes of events.
- nlopt, torch, pinocchio and CasADi: the solver is any point of its box or a failure; objectives and convergence are not modelled.
- Floats are reals, with a tag where the code tests finiteness; float32 casts and rounding are not modelled. `sqrt` is any function with `sqrt(x) >= 0` and `sqrt(x)^2 == x` for `x >= 0`; `cos` and `sin` of `atan2` are the normalised pair.
- Homogeneous matrices have bottom row (0, 0, 0, 1); the singular-matrix test then reads the 3x3 determinant.
- TeleWrapper.GetTeleData: the matrix pipeline is on values; the copies and slice assignments of `fast_mat_inv` and of the waist transform are modelled on arrays in TeleArrays, aliasing elsewhere is not. Hand rotations and controller buttons are passed through by the source and left out. The controller branch, which makes no initial-pose change, is TeleMeaning.WristValue with an identity change.
- Fancy indexing with an empty NumPy list raises in the source; here it gathers nothing. `build` only creates an adaptor for at least one mimic joint.
- Retargeting.SeqRetargeting.Retarget: the forward kinematics of `warm_start` and the timing counters are left out; a warm start is any new start vector. A robot limit has lower <= upper.
- Publisher: messages are word sequences of one length; the destructor's join is left out.
- CommandLoop: end of the pipe sets the stop event without a stop request, so the theorem is about received stop messages. Setting a state and sending it are one action. Long set-up and one pass of the control loop count as one action of the main thread.
- WsSender: a connection that dies ends the run. A frame taken before a control message arrives is sent first, as SenderPriority.ControlOvertakes bounds. Replies that bypass the queues are not ordered with them.
- VrPipeline: fields missing from a dictionary and values of a wrong type are not modelled beyond their defaults. Whether the parent's state mirrors the current child is not claimed.
- EpisodeWriter: `close` racing a save, image, depth and audio files, and the rerun log are left out; a failure before the file is opened is one outcome.
- RestartLimiter: operator start and stop after the first start, and health checks that overlap in time, are left out.
- JpegMetadata: dumps and loads are assumed inverse on the metadata written; standalone markers other than SOI and EOI are read as segments, as in the source. Unity's parser reads a missing sensor time as 0, which the model treats as missing.
- MimicJoints.CreateAccepts: the order in which several errors are reported follows the code but is not stated.
- Registries, configuration merging, CPU affinity selection, RPC aliases, device status files and URDF parsing are library-bound or easy.
