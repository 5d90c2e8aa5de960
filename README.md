# Head-pose liveness challenge — a Dafny model

This project models the core of an Android face-liveness screen. For every
camera frame, a landmark detector returns the face mesh. The screen then does
three things:
- it checks that the face sits inside an oval overlay (`isInsideTheBox`);
- it estimates the head's yaw and pitch from six landmark correspondences
  (`calculateYawPitch`);
- it drives a challenge that asks the user to look straight, right, left,
  up and down, in that order.

The state lives in `CameraViewModel`: five `_has*Angle` flags, `_isDone`,
the message and the last angles. `CameraFragment.onResults` and `onEmpty`
drive it, once per detector result.

Modules, one per concern of the source:

- `PoseEstimation` (pose_estimation.dfy): the landmark-selection loop as a
  method proved against a specification function, the camera-matrix layout,
  and the angle scaling. The OpenCV chain (solvePnP, Rodrigues, RQDecomp3x3)
  is a function parameter `solve` of type `Solver`, and the model never looks
  inside it.
- `Challenge` (challenge.dfy): the flag machine on values. It has the
  if/else-if chain (`Step`), one call's update (`Update`), `resetStatus`
  (`Reset`) and runs of updates. A reference machine with six stages
  (`Stage`, `FlagsAt`, `Advances`) is proved equal to the chain on every
  reachable state.
- `Framing` (framing.dfy): the cover-fit scale factor, the face rectangle
  built from landmarks 234, 10, 454 and 200, and the containment test.
- `ViewModel` (camera_view_model.dfy): class `CameraViewModel` with one
  field per LiveData. Its methods are proved against the functions above.
  A `postValue` becomes visible only after the posting call, so every read
  in one call sees the state on entry. The methods therefore read the flags
  into locals before writing. As a consequence, `isDone` is set by the call
  after the one that sets the fifth flag.
- `Fragment` (camera_fragment.dfy): class `CameraFragment` with `OnResults`
  and `OnEmpty`. Each is proved to act on the view model as `Frame` says.
  `Frame` is the pure one-frame function; lemmas about `Frames` cover
  sequences of frames.

Points where the code differs from what a reader of its design might expect
(the model follows the code):

- `isDone` is not recomputed from the flags. It is only ever set, and
  `resetStatus` leaves it set. After a reset, done can be true while every
  flag is false (`Challenge.ResetThenRunFlagsAsFresh`, `Fragment.LostFrameResets`).
- A face outside the oval and a frame with no face both reset the flags.
- `isInsideTheBox` does not change when the image is resized with its aspect
  ratio kept, or when the view and the box are enlarged together. It can change when image and
  view are scaled together (`Framing.UniformRescaleCanChangeVerdict`).
- The camera matrix puts the principal point at (h/2, w/2), swapped from
  the usual order. Pitch and yaw are the decomposed angles times 360. Both
  are kept as written, because the thresholds ±8, ±15 and −10 are applied to
  these values.

## Model

| member | source | states |
|---|---|---|
| PoseEstimation.CollectCorrespondences | app/src/main/java/com/example/facedetection/viewmodels/CameraViewModel.kt:91-100 | The loop returns the 2D points (x·w, y·h) and the 3D points (x·w, y·h, z) of the kept landmarks, in list order. Both lists have equal length and the same x, y at each position. A mesh of at least 292 points gives exactly 6 of each. |
| PoseEstimation.KeptIndicesMembers | app/src/main/java/com/example/facedetection/viewmodels/CameraViewModel.kt:93-94 | An index is kept exactly when it is below the list length and is one of 33, 263, 1, 61, 291, 199. |
| PoseEstimation.KeptIndicesArePnpPrefix | app/src/main/java/com/example/facedetection/viewmodels/CameraViewModel.kt:93-94 | Over n landmarks, the kept indices are the prefix of [1, 33, 61, 199, 263, 291] that lies below n. |
| PoseEstimation.KeptIndicesOfFullMesh | app/src/main/java/com/example/facedetection/viewmodels/CameraViewModel.kt:93-94 | With at least 292 landmarks, the kept indices are exactly 1, 33, 61, 199, 263, 291, in that order. |
| PoseEstimation.KeptIndicesAscending | app/src/main/java/com/example/facedetection/viewmodels/CameraViewModel.kt:93-94 | The kept indices are strictly ascending. |
| PoseEstimation.FullMeshCorrespondences | app/src/main/java/com/example/facedetection/viewmodels/CameraViewModel.kt:93-100 | On a full mesh, the 2D and 3D correspondences are those of landmarks 1, 33, 61, 199, 263, 291, in that order. |
| PoseEstimation.CameraMatrix | app/src/main/java/com/example/facedetection/viewmodels/CameraViewModel.kt:103-116 | The row-major matrix is the pinhole intrinsic matrix with focal length imageWidth on both axes and principal point (imageHeight/2, imageWidth/2). |
| PoseEstimation.CameraMatrixIsConventionalIffSquare | app/src/main/java/com/example/facedetection/viewmodels/CameraViewModel.kt:103-116 | The matrix equals the conventional one, with principal point (w/2, h/2), if and only if the image is square. |
| PoseEstimation.PoseFromEuler | app/src/main/java/com/example/facedetection/viewmodels/CameraViewModel.kt:135-137 | Pitch divided by 360 is the first decomposed angle. Yaw divided by 360 is the second. |
| PoseEstimation.EstimatePose | app/src/main/java/com/example/facedetection/viewmodels/CameraViewModel.kt:91-137 | On a mesh of at least 292 points, the pose is the solver's answer for exactly the correspondences of landmarks 1, 33, 61, 199, 263, 291, with this image's camera matrix and four zero distortion coefficients, scaled as PoseFromEuler says. |
| PoseEstimation.PoseDependsOnlyOnKeptLandmarks | app/src/main/java/com/example/facedetection/viewmodels/CameraViewModel.kt:93-137 | Two full meshes that agree on the six kept landmarks yield the same pose, for any solver. |
| Challenge.Reset | app/src/main/java/com/example/facedetection/viewmodels/CameraViewModel.kt:176-182 | All five flags become false and the completion flag is kept. |
| Challenge.Step | app/src/main/java/com/example/facedetection/viewmodels/CameraViewModel.kt:140-150 | The chain clears no flag and sets at most one. On prefix-shaped flags it is the six-stage reference machine: it advances one stage when that stage's pose is shown (front needs yaw and pitch in [−8, 8], right yaw > 15, left yaw < −15, up pitch > 15, down pitch < −10), otherwise nothing changes, and nothing changes after stage 5. StepGates and GuardsExclusive state the per-flag gates. |
| Challenge.Update | app/src/main/java/com/example/facedetection/viewmodels/CameraViewModel.kt:140-155 | One call clears no flag, sets at most one, keeps the prefix shape and never clears done. An update that newly sets done found all five flags already set on entry and earns nothing itself. DoneLagsOneUpdate gives the if-and-only-if. |
| Challenge.Run | app/src/main/java/com/example/facedetection/viewmodels/CameraViewModel.kt:140-155 | Over any run of updates no flag is cleared and done is never cleared; k updates set at most k flags; prefix-shaped flags stay prefix-shaped; and, without a reset, done keeps implying that all five flags are set. |
| Challenge.OrderedIffStage | app/src/main/java/com/example/facedetection/viewmodels/CameraViewModel.kt:140-150 | Flags that form a prefix of front, right, left, up, down are exactly the flags of one of the six stages. |
| Challenge.StepKeepsOrdered | app/src/main/java/com/example/facedetection/viewmodels/CameraViewModel.kt:140-150 | The update keeps the set flags a prefix of front, right, left, up, down. |
| Challenge.GuardsExclusive | app/src/main/java/com/example/facedetection/viewmodels/CameraViewModel.kt:140-150 | On prefix-shaped flags at most one of the five branch guards holds. |
| Challenge.StepGates | app/src/main/java/com/example/facedetection/viewmodels/CameraViewModel.kt:140-149 | A flag becomes set only if its predecessor was set on entry and its threshold held. On prefix-shaped flags, each guard that holds does set its flag. |
| Challenge.DoneLagsOneUpdate | app/src/main/java/com/example/facedetection/viewmodels/CameraViewModel.kt:153-155 | From not-done, an update sets done if and only if all five flags were already set on entry. |
| Challenge.RunFlagsIgnoreDone | app/src/main/java/com/example/facedetection/viewmodels/CameraViewModel.kt:140-155 | The flags after a run depend only on the starting flags, not on done. |
| Challenge.ResetThenRunFlagsAsFresh | app/src/main/java/com/example/facedetection/viewmodels/CameraViewModel.kt:140-182 | After a reset, the flags evolve as in a fresh view model. A done that was already set stays set. |
| Challenge.FullChallenge | app/src/main/java/com/example/facedetection/viewmodels/CameraViewModel.kt:140-155 | Poses for straight, right, left, up, down earn the flags in that order. Done stays false after the fifth and becomes true on the next update. |
| Challenge.LeftBeforeRightIgnored | app/src/main/java/com/example/facedetection/viewmodels/CameraViewModel.kt:140-141 | Turning left before turning right earns nothing. |
| Framing.ScaleFactor | app/src/main/java/com/example/facedetection/viewmodels/CameraViewModel.kt:166 | The scaled image covers the view in both directions and fits it exactly in one. |
| Framing.ScaleFactorIsLeastCover | app/src/main/java/com/example/facedetection/viewmodels/CameraViewModel.kt:166 | Any uniform scale that covers the view is at least the cover-fit factor. |
| Framing.FaceRect | app/src/main/java/com/example/facedetection/viewmodels/CameraViewModel.kt:168-173 | The face rectangle is the pixel rectangle of landmarks 234 (left), 10 (top), 454 (right) and 200 (bottom), mapped to pixels as the pose points are, scaled by the given factor. |
| Framing.IsInsideTheBox | app/src/main/java/com/example/facedetection/viewmodels/CameraViewModel.kt:158-174 | The verdict holds exactly when the oval's box contains the face's pixel rectangle scaled by the cover-fit factor, and never for an empty box. InsideIgnoresImageResolution, InsideScalesWithView and UniformRescaleCanChangeVerdict state how it responds to resizing. |
| Framing.ContainsScaled | app/src/main/java/com/example/facedetection/viewmodels/CameraViewModel.kt:168-173 | Scaling the box and the face rectangle by the same positive factor leaves containment unchanged. |
| Framing.ScaleFactorOfSimilarImage | app/src/main/java/com/example/facedetection/viewmodels/CameraViewModel.kt:166 | For two image sizes with the same aspect ratio, the scaled image has the same size in the view. |
| Framing.ScaleFactorOfScaledView | app/src/main/java/com/example/facedetection/viewmodels/CameraViewModel.kt:166 | Enlarging the view by a whole factor k multiplies the scale factor by k. Applying the lemma twice covers any rational ratio between two view sizes. |
| Framing.InsideIgnoresImageResolution | app/src/main/java/com/example/facedetection/viewmodels/CameraViewModel.kt:158-174 | Two image sizes with the same aspect ratio give the same framing verdict. |
| Framing.InsideScalesWithView | app/src/main/java/com/example/facedetection/viewmodels/CameraViewModel.kt:158-174 | Enlarging the view and the box by the same whole factor leaves the verdict unchanged. Applying the lemma twice covers any rational ratio. |
| Framing.UniformRescaleCanChangeVerdict | app/src/main/java/com/example/facedetection/viewmodels/CameraViewModel.kt:158-174 | Scaling image and view together can change the verdict: a concrete face is inside at size 1 and outside at size 2. |
| ViewModel.CameraViewModel.constructor | app/src/main/java/com/example/facedetection/viewmodels/CameraViewModel.kt:21-44 | All flags and done start false, and no message or angle has been posted. |
| ViewModel.CameraViewModel.SetMessage | app/src/main/java/com/example/facedetection/viewmodels/CameraViewModel.kt:73-75 | The message is set and nothing else changes. |
| ViewModel.CameraViewModel.ResetStatus | app/src/main/java/com/example/facedetection/viewmodels/CameraViewModel.kt:176-182 | The five flags are cleared. isDone, the message and the shown angles are unchanged, and the prefix invariant is kept. |
| ViewModel.CameraViewModel.CalculateYawPitch | app/src/main/java/com/example/facedetection/viewmodels/CameraViewModel.kt:86-156 | The new flags and done are Update of the entry state with the estimated pose. The shown angles are that pose, the message is unchanged and the prefix invariant is kept. |
| Fragment.Instruction | app/src/main/java/com/example/facedetection/fragments/CameraFragment.kt:189-199 | There is no instruction exactly when all five flags are set. Otherwise earning the named pose sets an unset flag and raises the stage (the number of leading set flags), which only the first unset flag does; so the instruction names the first unearned pose. |
| Fragment.InstructionPredictsStep | app/src/main/java/com/example/facedetection/fragments/CameraFragment.kt:189-204 | On prefix-shaped flags, obeying the instruction on screen earns exactly its flag, and any other pose earns nothing. With no instruction, nothing can be earned. |
| Fragment.Frame | app/src/main/java/com/example/facedetection/fragments/CameraFragment.kt:178-217 | One frame never clears done and keeps the flags prefix-shaped. A lost frame leaves no flag set and a framed one sets at most one. On a framed face with a pose still to earn, an instruction is shown and the flags change exactly when the pose obeys it. On a framed face with all five flags set, the message is unchanged, the flags stay as they are and done becomes true. LostFrameResets and TrackedFrameShowsEntryInstruction give the message and state of each case. |
| Fragment.Classify | app/src/main/java/com/example/facedetection/fragments/CameraFragment.kt:179-204 | Only the first face counts. It is tracked exactly when the oval's box contains its scaled framing rectangle, and its pose is the solver's answer for its six correspondences. |
| Fragment.LostFrameResets | app/src/main/java/com/example/facedetection/fragments/CameraFragment.kt:205-217 | A lost or badly framed frame shows "no face" and clears the flags, and done is kept. |
| Fragment.TrackedFrameShowsEntryInstruction | app/src/main/java/com/example/facedetection/fragments/CameraFragment.kt:189-204 | A framed face shows the instruction computed from the flags on entry, then runs exactly one update. With all five flags already set there is no instruction and the message stays as it was. |
| Fragment.DoneStaysDone | app/src/main/java/com/example/facedetection/fragments/CameraFragment.kt:178-217 | Once done, any sequence of frames leaves it done. |
| Fragment.FramesKeepOrdered | app/src/main/java/com/example/facedetection/fragments/CameraFragment.kt:178-217 | Any sequence of frames keeps the flags prefix-shaped. |
| Fragment.FlagsBoundedByTrackedStreak | app/src/main/java/com/example/facedetection/fragments/CameraFragment.kt:178-217 | After the face has been lost at least once, the earned flags number at most the framed frames since. Earning all five flags therefore takes five consecutive framed frames. |
| Fragment.PlayThrough | app/src/main/java/com/example/facedetection/fragments/CameraFragment.kt:189-204 | Five framed frames in the right order earn all flags, and the message ends at "look down". The next frame sets done and leaves the message as it was. |
| Fragment.CameraFragment.OnResults | app/src/main/java/com/example/facedetection/fragments/CameraFragment.kt:178-211 | With no binding, nothing changes. Otherwise the view model moves as Frame says on the classified event, and shown angles change only on a framed face. |
| Fragment.CameraFragment.OnEmpty | app/src/main/java/com/example/facedetection/fragments/CameraFragment.kt:213-217 | The view model moves as a lost frame says: "no face", flags cleared, done and shown angles kept. |

## Left out

- The OpenCV calls solvePnP, Rodrigues and RQDecomp3x3 are foreign numerical code. They are the parameter `solve`, which is assumed to always return three angles.
- When solvePnP throws, the source logs the error and goes on with whatever `rVec` holds: the vector of the last frame that solved, if there is one; otherwise the empty matrix from `init`, which the unguarded `Rodrigues` call then receives. The model does not capture either case; it would need the solver's hidden state.
- A failed OpenCV load in the view model's `init` leaves its matrices uninitialised, and the next estimate crashes. This is not modelled.
- LiveData `postValue` hands values to the main thread asynchronously. Only its sequential effect is modelled: reads within one call see the entry state, and writes are visible to the next call. Interleavings of frames with pending posts, and the coalescing of posts, are concurrency and are left out.
- Float and double arithmetic is modelled with exact reals. Rounding is not modelled.
- Android's `RectF.contains(l, t, r, b)` is not part of this model. `Framing.Contains` assumes its documented semantics: a non-empty box whose edges enclose the given rectangle, with touching allowed.
- `isInsideTheBox` reads no view-model state, so it is the module function `Framing.IsInsideTheBox` rather than a class member.
- Framing.ScaleFactor: requires a positive image size. With a zero size the source's float division yields an infinite or NaN scale, which reals cannot express. The camera never delivers such an image.
- Fragment.CameraFragment.OnResults: requires at least one face with at least 455 landmarks. The detector reports a face only through `onResults` and yields 478 landmarks; with fewer, the source's indexing would throw.
- `setPitch` and `setYaw` are each called twice with the same values. The model assigns the shown angles once.
- The yaw and pitch that the detector helper computes and places in its result bundle are never read by the fragment. The helper (mesh setup, bitmap rotation, asynchronous detection) is not part of this model.
- Vibration on each earned flag, navigation when `isDone` becomes true, camera startup, the "waiting for camera" message of `onCreateView`, `onDestroyView` clearing the binding, `onResume`, `onPause` and `onError` are UI and lifecycle code. They are left out.
- The activity, the home and completion fragments, and the oval overlay's drawing are not part of this model. The oval rectangle and the overlay size are inputs.
