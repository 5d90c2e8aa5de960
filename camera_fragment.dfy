/** `CameraFragment`, the per-frame driver: for each detector result it checks
    the framing, shows the instruction for the next pose and runs the pose
    update; a lost or badly framed face resets the challenge. */
module Fragment {
  import opened Options
  import opened PoseEstimation
  import opened Challenge
  import opened Framing
  import opened ViewModel

  /** The part of the detector's `ResultBundle` the fragment reads: the
      landmarks of every detected face and the input image size. */
  datatype ResultBundle = ResultBundle(faces: seq<seq<Landmark>>, inputImageHeight: int, inputImageWidth: int)

  /** The oval overlay of the view binding: the oval's bounding rectangle and
      the overlay's size. */
  datatype OvalView = OvalView(ovalRect: Rect, width: int, height: int)

  /** The instruction for the first pose not yet earned; none once all are.
      Earning the pose it names sets an unset flag and raises the stage, which
      earning any later unset flag would not. */
  function Instruction(f: Flags): (m: Option<Message>)
    ensures m.None? <==> AllSet(f)
    ensures m.Some? ==> Earn(f, m.value) != f && Stage(Earn(f, m.value)) > Stage(f)
  {
    if !f.front then Some(LookStraight)
    else if !f.right then Some(LookRight)
    else if !f.left then Some(LookLeft)
    else if !f.up then Some(LookUp)
    else if !f.down then Some(LookDown)
    else None
  }

  /** The pose an instruction asks for, with the thresholds the update applies. */
  predicate Obeys(m: Message, p: Pose)
  {
    match m
    case LookStraight => Straight(p.yaw) && Straight(p.pitch)
    case LookRight => p.yaw > 15.0
    case LookLeft => p.yaw < -15.0
    case LookUp => p.pitch > 15.0
    case LookDown => p.pitch < -10.0
    case _ => false
  }

  /** The flags with the pose an instruction asks for earned. */
  function Earn(f: Flags, m: Message): Flags
  {
    match m
    case LookStraight => f.(front := true)
    case LookRight => f.(right := true)
    case LookLeft => f.(left := true)
    case LookUp => f.(up := true)
    case LookDown => f.(down := true)
    case _ => f
  }

  /** The instruction on screen is exactly what the next update rewards: obeying
      it earns that flag, anything else earns nothing. */
  lemma InstructionPredictsStep(f: Flags, p: Pose)
    requires Ordered(f)
    ensures Instruction(f).None? ==> Step(f, p) == f
    ensures Instruction(f).Some? ==>
      Step(f, p) == if Obeys(Instruction(f).value, p) then Earn(f, Instruction(f).value) else f
  {
  }

  /** What a detector frame amounts to for the challenge. */
  datatype FrameEvent =
    | Tracked(pose: Pose)  // a face inside the oval, with its estimated pose
    | Lost                 // no face, or a face outside the oval

  /** One frame on the view model's observable state. A tracked frame shows the
      instruction for the flags on entry (leaving the message as it was when
      all five are earned) and then runs the update; a lost frame shows "no
      face" and resets the flags. No frame clears `isDone` or breaks the order of
      the flags; a lost frame leaves none set and a tracked one sets at most one,
      and on a tracked frame with a pose still to earn, the flags change exactly
      when the pose obeys the instruction just shown. */
  function Frame(v: ViewState, ev: FrameEvent): (r: ViewState)
    ensures v.challenge.done ==> r.challenge.done
    ensures Ordered(v.challenge.flags) ==> Ordered(r.challenge.flags)
    ensures Count(r.challenge.flags) <= if ev.Lost? then 0 else Count(v.challenge.flags) + 1
    ensures ev.Tracked? && Ordered(v.challenge.flags) && !AllSet(v.challenge.flags) ==>
      r.message.Some? && (r.challenge.flags != v.challenge.flags <==> Obeys(r.message.value, ev.pose))
    ensures ev.Tracked? && AllSet(v.challenge.flags) ==>
      r.message == v.message && r.challenge == ChallengeState(v.challenge.flags, true)
  {
    match ev
    case Tracked(p) =>
      var shown := match Instruction(v.challenge.flags)
                   case Some(m) => Some(m)
                   case None => v.message;
      ViewState(shown, Update(v.challenge, p))
    case Lost => ViewState(Some(NoFace), Reset(v.challenge))
  }

  /** A sequence of frames, in order. */
  function Frames(v: ViewState, evs: seq<FrameEvent>): ViewState
    decreases |evs|
  {
    if evs == [] then v else Frame(Frames(v, evs[..|evs| - 1]), evs[|evs| - 1])
  }

  /** The number of tracked frames at the end of `evs`. */
  function TrailingTracked(evs: seq<FrameEvent>): (n: nat)
    ensures n <= |evs|
    decreases |evs|
  {
    if evs == [] || evs[|evs| - 1].Lost? then 0 else 1 + TrailingTracked(evs[..|evs| - 1])
  }

  /** How `onResults` classifies a detector result, given the oval: only the
      first face counts; it is tracked when the oval's box holds its four framing
      landmarks, and its pose comes from its six correspondences. */
  function Classify(resultBundle: ResultBundle, oval: OvalView, solve: Solver): (e: FrameEvent)
    requires |resultBundle.faces| > 0 && |resultBundle.faces[0]| > 454
    requires resultBundle.inputImageWidth > 0 && resultBundle.inputImageHeight > 0
    ensures var face, w, h := resultBundle.faces[0], resultBundle.inputImageWidth, resultBundle.inputImageHeight;
      && (e.Tracked? <==> Contains(oval.ovalRect, ScaleRect(PixelRect(face, w, h), ScaleFactor(oval.width, oval.height, w, h))))
      && (e.Tracked? ==> e.pose == PoseFromEuler(solve(ModelPointsAt(face, PnpOrder, w, h), ImagePointsAt(face, PnpOrder, w, h),
                                                        CameraMatrix(w, h), ZeroDistortion)))
  {
    var face := resultBundle.faces[0];
    if IsInsideTheBox(face, resultBundle.inputImageWidth, resultBundle.inputImageHeight,
                      oval.ovalRect, oval.width, oval.height)
    then Tracked(EstimatePose(face, resultBundle.inputImageWidth, resultBundle.inputImageHeight, solve))
    else Lost
  }

  // ---------------------------------------------------------------------------
  // Properties of frame sequences.

  /** A lost frame shows "no face", clears every flag and keeps `isDone`. */
  lemma LostFrameResets(v: ViewState)
    ensures Frame(v, Lost).message == Some(NoFace)
    ensures Frame(v, Lost).challenge.flags == NoFlags
    ensures Frame(v, Lost).challenge.done == v.challenge.done
  {
  }

  /** A tracked frame shows the instruction for the flags before the update;
      with every pose earned there is none, and the message stays as it was. */
  lemma TrackedFrameShowsEntryInstruction(v: ViewState, p: Pose)
    ensures Frame(v, Tracked(p)).message ==
      if AllSet(v.challenge.flags) then v.message else Instruction(v.challenge.flags)
    ensures !AllSet(v.challenge.flags) ==> Frame(v, Tracked(p)).message.Some?
    ensures Frame(v, Tracked(p)).challenge == Update(v.challenge, p)
  {
  }

  /** Once the challenge is complete it stays complete, whatever frames follow. */
  lemma {:induction false} DoneStaysDone(v: ViewState, evs: seq<FrameEvent>)
    requires v.challenge.done
    ensures Frames(v, evs).challenge.done
    decreases |evs|
  {
    if evs != [] {
      DoneStaysDone(v, evs[..|evs| - 1]);
    }
  }

  /** Frames keep the earned flags a prefix of the pose order. */
  lemma {:induction false} FramesKeepOrdered(v: ViewState, evs: seq<FrameEvent>)
    requires Ordered(v.challenge.flags)
    ensures Ordered(Frames(v, evs).challenge.flags)
    decreases |evs|
  {
    if evs != [] {
      FramesKeepOrdered(v, evs[..|evs| - 1]);
    }
  }

  /** Each frame earns at most one flag and a lost frame clears them all, so
      after any loss of the face the earned flags number at most the tracked
      frames since. Earning all five needs five consecutive framed frames. */
  lemma {:induction false} FlagsBoundedByTrackedStreak(v: ViewState, evs: seq<FrameEvent>)
    ensures Lost in evs ==> Count(Frames(v, evs).challenge.flags) <= TrailingTracked(evs)
    ensures Lost !in evs ==> Count(Frames(v, evs).challenge.flags) <= Count(v.challenge.flags) + |evs|
    decreases |evs|
  {
    if evs != [] {
      var init := evs[..|evs| - 1];
      var last := evs[|evs| - 1];
      assert evs == init + [last];
      FlagsBoundedByTrackedStreak(v, init);
      if last.Tracked? {
        assert Lost in evs ==> Lost in init;
      }
    }
  }

  /** Straight, right, left, up, down on consecutive framed frames complete the
      flags; the instruction shown last is "look down", and the next frame sets
      `isDone` while the message stays "look down". */
  lemma PlayThrough(next: Pose)
    ensures var v := Frames(ViewState(None, Initial),
              [Tracked(Pose(0.0, 0.0)), Tracked(Pose(20.0, 0.0)), Tracked(Pose(-20.0, 0.0)),
               Tracked(Pose(0.0, 20.0)), Tracked(Pose(0.0, -15.0))]);
            v == ViewState(Some(LookDown), ChallengeState(AllFlags, false))
            && Frame(v, Tracked(next)) == ViewState(Some(LookDown), ChallengeState(AllFlags, true))
  {
    var evs := [Tracked(Pose(0.0, 0.0)), Tracked(Pose(20.0, 0.0)), Tracked(Pose(-20.0, 0.0)),
                Tracked(Pose(0.0, 20.0)), Tracked(Pose(0.0, -15.0))];
    assert evs[..1] == [Tracked(Pose(0.0, 0.0))];
    assert evs[..2] == evs[..1] + [Tracked(Pose(20.0, 0.0))];
    assert evs[..3] == evs[..2] + [Tracked(Pose(-20.0, 0.0))];
    assert evs[..4] == evs[..3] + [Tracked(Pose(0.0, 20.0))];
    var v0 := ViewState(None, Initial);
    assert Frames(v0, evs[..1]) == ViewState(Some(LookStraight), ChallengeState(FlagsAt(1), false));
    assert Frames(v0, evs[..2]) == ViewState(Some(LookRight), ChallengeState(FlagsAt(2), false));
    assert Frames(v0, evs[..3]) == ViewState(Some(LookLeft), ChallengeState(FlagsAt(3), false));
    assert Frames(v0, evs[..4]) == ViewState(Some(LookUp), ChallengeState(FlagsAt(4), false));
  }

  // ---------------------------------------------------------------------------
  // The fragment.

  class CameraFragment {
    const viewModel: CameraViewModel
    /** `_binding`: the view, present between onCreateView and onDestroyView. */
    var binding: Option<OvalView>

    constructor (viewModel: CameraViewModel, binding: Option<OvalView>)
      ensures this.viewModel == viewModel && this.binding == binding
    {
      this.viewModel := viewModel;
      this.binding := binding;
    }

    /** `onResults`: with no view, nothing happens. Otherwise a face inside the
        oval gets the instruction for the first unearned pose (chosen before the
        update) and one pose update; a face outside it gets "no face" and a
        reset. The detector calls this only with at least one face, and its
        mesh has 478 points, enough for every index read here. */
    method OnResults(resultBundle: ResultBundle, solve: Solver)
      requires viewModel.Valid()
      requires |resultBundle.faces| > 0 && |resultBundle.faces[0]| > 454
      requires resultBundle.inputImageWidth > 0 && resultBundle.inputImageHeight > 0
      modifies viewModel
      ensures viewModel.Valid()
      ensures binding.None? ==> unchanged(viewModel)
      ensures binding.Some? ==>
        viewModel.Observed() == Frame(old(viewModel.Observed()), Classify(resultBundle, binding.value, solve))
      ensures binding.Some? && Classify(resultBundle, binding.value, solve).Tracked? ==>
        viewModel.shownPose == Some(Classify(resultBundle, binding.value, solve).pose)
      ensures binding.Some? && Classify(resultBundle, binding.value, solve).Lost? ==>
        viewModel.shownPose == old(viewModel.shownPose)
    {
      match binding
      case None =>
      case Some(it) =>
        var face := resultBundle.faces[0];
        if IsInsideTheBox(face, resultBundle.inputImageWidth, resultBundle.inputImageHeight,
                          it.ovalRect, it.width, it.height) {
          if !viewModel.hasFrontAngle {
            viewModel.SetMessage(LookStraight);
          } else if !viewModel.hasRightAngle {
            viewModel.SetMessage(LookRight);
          } else if !viewModel.hasLeftAngle {
            viewModel.SetMessage(LookLeft);
          } else if !viewModel.hasUpAngle {
            viewModel.SetMessage(LookUp);
          } else if !viewModel.hasDownAngle {
            viewModel.SetMessage(LookDown);
          }
          viewModel.CalculateYawPitch(face, resultBundle.inputImageWidth, resultBundle.inputImageHeight, solve);
        } else {
          viewModel.SetMessage(NoFace);
          viewModel.ResetStatus();
        }
    }

    /** `onEmpty`: no face in the frame, so "no face" and a reset. */
    method OnEmpty()
      requires viewModel.Valid()
      modifies viewModel
      ensures viewModel.Valid()
      ensures viewModel.Observed() == Frame(old(viewModel.Observed()), Lost)
      ensures viewModel.shownPose == old(viewModel.shownPose)
    {
      viewModel.SetMessage(NoFace);
      viewModel.ResetStatus();
    }
  }
}
