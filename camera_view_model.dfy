/** `CameraViewModel`: the LiveData fields the challenge lives in and the
    operations that change them. Each LiveData is a field. A `postValue`
    reaches readers only after the call that posts it, so every read inside
    one call sees the state on entry; the methods below read the fields into
    locals first and assign afterwards. */
module ViewModel {
  import opened Options
  import opened PoseEstimation
  import opened Challenge

  /** The string resources the screen shows. */
  datatype Message = LookStraight | LookRight | LookLeft | LookUp | LookDown | NoFace

  /** What observers of the view model see: the message and the challenge. */
  datatype ViewState = ViewState(message: Option<Message>, challenge: ChallengeState)

  class CameraViewModel {
    /** `_message`; unset until the first `setMessage`. */
    var message: Option<Message>
    /** `_yaw` and `_pitch`, as last posted; unset until the first estimate. */
    var shownPose: Option<Pose>
    var hasFrontAngle: bool
    var hasRightAngle: bool
    var hasLeftAngle: bool
    var hasUpAngle: bool
    var hasDownAngle: bool
    var isDone: bool

    function AngleFlags(): Flags
      reads this
    {
      Flags(hasFrontAngle, hasRightAngle, hasLeftAngle, hasUpAngle, hasDownAngle)
    }

    function ChallengeStatus(): ChallengeState
      reads this
    {
      ChallengeState(AngleFlags(), isDone)
    }

    function Observed(): ViewState
      reads this
    {
      ViewState(message, ChallengeStatus())
    }

    /** The earned flags are always a prefix of front, right, left, up, down. */
    ghost predicate Valid()
      reads this
    {
      Ordered(AngleFlags())
    }

    /** Every flag starts false (`MutableLiveData(false)`); nothing is posted yet. */
    constructor ()
      ensures Valid()
      ensures ChallengeStatus() == Initial
      ensures message == None && shownPose == None
    {
      message := None;
      shownPose := None;
      hasFrontAngle, hasRightAngle, hasLeftAngle, hasUpAngle, hasDownAngle := false, false, false, false, false;
      isDone := false;
    }

    /** `setMessage`: posts the message; nothing else changes. */
    method SetMessage(m: Message)
      requires Valid()
      modifies this
      ensures Valid()
      ensures message == Some(m)
      ensures ChallengeStatus() == old(ChallengeStatus()) && shownPose == old(shownPose)
    {
      message := Some(m);
    }

    /** `resetStatus`: clears the five flags; `isDone`, the message and the
        shown angles keep their values. */
    method ResetStatus()
      requires Valid()
      modifies this
      ensures Valid()
      ensures ChallengeStatus() == Reset(old(ChallengeStatus()))
      ensures message == old(message) && shownPose == old(shownPose)
    {
      hasFrontAngle := false;
      hasRightAngle := false;
      hasLeftAngle := false;
      hasUpAngle := false;
      hasDownAngle := false;
    }

    /** `calculateYawPitch`: estimate the pose of one frame, post it, and move
        the challenge on by at most one flag. `solve` stands for the OpenCV
        calls (solvePnP, Rodrigues, RQDecomp3x3). */
    method CalculateYawPitch(faceLandmarks: seq<Landmark>, imageWidth: int, imageHeight: int, solve: Solver)
      requires Valid()
      modifies this
      ensures Valid()
      ensures ChallengeStatus() == Update(old(ChallengeStatus()), EstimatePose(faceLandmarks, imageWidth, imageHeight, solve))
      ensures shownPose == Some(EstimatePose(faceLandmarks, imageWidth, imageHeight, solve))
      ensures message == old(message)
    {
      var points2D, points3D := CollectCorrespondences(faceLandmarks, imageWidth, imageHeight);
      var cameraMatrix := CameraMatrix(imageWidth, imageHeight);
      var euler := solve(points3D, points2D, cameraMatrix, ZeroDistortion);
      var pitch := euler.e0 * 360.0;
      var yaw := euler.e1 * 360.0;
      shownPose := Some(Pose(yaw, pitch));

      // The values every `.value` read in this call sees.
      var front, right, left, up, down := hasFrontAngle, hasRightAngle, hasLeftAngle, hasUpAngle, hasDownAngle;
      if yaw < -15.0 && right && !left {
        hasLeftAngle := true;
      } else if pitch > 15.0 && left && !up {
        hasUpAngle := true;
      } else if pitch < -10.0 && up && !down {
        hasDownAngle := true;
      } else if yaw > 15.0 && front && !right {
        hasRightAngle := true;
      } else if -8.0 <= yaw <= 8.0 && -8.0 <= pitch <= 8.0 && !front {
        hasFrontAngle := true;
      }
      if down && front && up && right && left {
        isDone := true;
      }
      StepKeepsOrdered(Flags(front, right, left, up, down), Pose(yaw, pitch));
    }
  }
}
