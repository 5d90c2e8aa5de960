/** The pose challenge of `CameraViewModel`: five flags that must be earned in
    the order front, right, left, up, down, and a completion flag. This module
    states the machine on values; the class in camera_view_model.dfy updates
    its fields as these functions say. */
module Challenge {
  import opened PoseEstimation

  /** The five `_has*Angle` flags. */
  datatype Flags = Flags(front: bool, right: bool, left: bool, up: bool, down: bool)

  /** The flags together with `_isDone`. */
  datatype ChallengeState = ChallengeState(flags: Flags, done: bool)

  const NoFlags: Flags := Flags(false, false, false, false, false)
  const AllFlags: Flags := Flags(true, true, true, true, true)

  /** A freshly created view model: nothing earned, not done. */
  const Initial: ChallengeState := ChallengeState(NoFlags, false)

  predicate AllSet(f: Flags)
  {
    f.front && f.right && f.left && f.up && f.down
  }

  /** `v in -8.0..8.0`: the closed range that counts as facing the camera. */
  predicate Straight(v: real)
  {
    -8.0 <= v <= 8.0
  }

  /** The five branch guards of the update chain, in the source's order. */
  predicate LeftGuard(f: Flags, p: Pose)  { p.yaw < -15.0 && f.right && !f.left }
  predicate UpGuard(f: Flags, p: Pose)    { p.pitch > 15.0 && f.left && !f.up }
  predicate DownGuard(f: Flags, p: Pose)  { p.pitch < -10.0 && f.up && !f.down }
  predicate RightGuard(f: Flags, p: Pose) { p.yaw > 15.0 && f.front && !f.right }
  predicate FrontGuard(f: Flags, p: Pose) { Straight(p.yaw) && Straight(p.pitch) && !f.front }

  /** The if/else-if chain of `calculateYawPitch`: the first guard that holds sets
      its flag; none holding leaves the flags as they are. It clears nothing and
      sets at most one flag, and on ordered flags it is the stage machine below:
      one stage on when that stage's pose is presented, otherwise no change. */
  function Step(f: Flags, p: Pose): (r: Flags)
    ensures Below(f, r)
    ensures r == f || Count(r) == Count(f) + 1
    ensures Ordered(f) ==> r == if Advances(Stage(f), p) then FlagsAt(Stage(f) + 1) else f
  {
    if LeftGuard(f, p) then f.(left := true)
    else if UpGuard(f, p) then f.(up := true)
    else if DownGuard(f, p) then f.(down := true)
    else if RightGuard(f, p) then f.(right := true)
    else if FrontGuard(f, p) then f.(front := true)
    else f
  }

  /** One call of `calculateYawPitch` after the pose is known. The completion
      test reads the flags as they were on entry, since the flag writes are
      posted and not yet visible; `_isDone` is only ever set. The call that
      sets it earns no flag itself: every flag was already set on entry. */
  function Update(s: ChallengeState, p: Pose): (r: ChallengeState)
    ensures Below(s.flags, r.flags) && Count(r.flags) <= Count(s.flags) + 1
    ensures Ordered(s.flags) ==> Ordered(r.flags)
    ensures s.done ==> r.done
    ensures r.done && !s.done ==> AllSet(s.flags) && r.flags == s.flags
  {
    ChallengeState(Step(s.flags, p), s.done || AllSet(s.flags))
  }

  /** `resetStatus`: the five flags cleared, `_isDone` untouched. */
  function Reset(s: ChallengeState): (r: ChallengeState)
    ensures r.flags == NoFlags && r.done == s.done
  {
    ChallengeState(NoFlags, s.done)
  }

  /** A sequence of updates, applied in order. No flag is cleared and `_isDone`
      never resets; `k` updates set at most `k` flags; ordered flags stay
      ordered; and, without a reset, done keeps implying that every flag is set. */
  function Run(s: ChallengeState, poses: seq<Pose>): (r: ChallengeState)
    ensures Below(s.flags, r.flags) && (s.done ==> r.done)
    ensures Count(r.flags) <= Count(s.flags) + |poses|
    ensures Ordered(s.flags) ==> Ordered(r.flags)
    ensures (s.done ==> AllSet(s.flags)) ==> (r.done ==> AllSet(r.flags))
    decreases |poses|
  {
    if poses == [] then s else Run(Update(s, poses[0]), poses[1..])
  }

  // ---------------------------------------------------------------------------
  // The reference machine: six stages, one per prefix of the pose order.

  /** The set flags form a prefix of front, right, left, up, down. */
  predicate Ordered(f: Flags)
  {
    (f.right ==> f.front) && (f.left ==> f.right) && (f.up ==> f.left) && (f.down ==> f.up)
  }

  /** The number of leading flags that are set. */
  function Stage(f: Flags): (n: nat)
    ensures n <= 5
  {
    if !f.front then 0
    else if !f.right then 1
    else if !f.left then 2
    else if !f.up then 3
    else if !f.down then 4
    else 5
  }

  /** The flags of stage `n`: exactly the first `n` poses earned. */
  function FlagsAt(n: nat): (f: Flags)
    requires n <= 5
    ensures Stage(f) == n && Ordered(f)
  {
    Flags(n >= 1, n >= 2, n >= 3, n >= 4, n >= 5)
  }

  /** The pose that moves stage `n` on to stage `n + 1`; stage 5 is final. */
  predicate Advances(n: nat, p: Pose)
  {
    match n
    case 0 => Straight(p.yaw) && Straight(p.pitch)
    case 1 => p.yaw > 15.0
    case 2 => p.yaw < -15.0
    case 3 => p.pitch > 15.0
    case 4 => p.pitch < -10.0
    case _ => false
  }

  /** Ordered flags are exactly the flags of some stage. */
  lemma OrderedIffStage(f: Flags)
    ensures Ordered(f) <==> f == FlagsAt(Stage(f))
  {
  }

  /** The update keeps the set flags a prefix of the pose order. */
  lemma StepKeepsOrdered(f: Flags, p: Pose)
    requires Ordered(f)
    ensures Ordered(Step(f, p))
  {
  }

  /** On ordered flags at most one branch guard holds, so the order of the
      else-if chain never decides which flag is set. */
  lemma GuardsExclusive(f: Flags, p: Pose)
    requires Ordered(f)
    ensures (if LeftGuard(f, p) then 1 else 0) + (if UpGuard(f, p) then 1 else 0)
          + (if DownGuard(f, p) then 1 else 0) + (if RightGuard(f, p) then 1 else 0)
          + (if FrontGuard(f, p) then 1 else 0) <= 1
  {
  }

  // ---------------------------------------------------------------------------
  // Monotonicity and gating of one update.

  /** Flag-wise implication: every flag set in `f` is set in `g`. */
  predicate Below(f: Flags, g: Flags)
  {
    (f.front ==> g.front) && (f.right ==> g.right) && (f.left ==> g.left)
    && (f.up ==> g.up) && (f.down ==> g.down)
  }

  /** The number of set flags. */
  function Count(f: Flags): (n: nat)
    ensures n <= 5
    ensures n == 5 <==> AllSet(f)
    ensures n == 0 <==> f == NoFlags
  {
    (if f.front then 1 else 0) + (if f.right then 1 else 0) + (if f.left then 1 else 0)
    + (if f.up then 1 else 0) + (if f.down then 1 else 0)
  }

  /** Each flag is set only behind its predecessor and past its threshold; on
      ordered flags these conditions are also sufficient. */
  lemma StepGates(f: Flags, p: Pose)
    ensures !f.front && Step(f, p).front ==> Straight(p.yaw) && Straight(p.pitch)
    ensures !f.right && Step(f, p).right ==> f.front && p.yaw > 15.0
    ensures !f.left && Step(f, p).left ==> f.right && p.yaw < -15.0
    ensures !f.up && Step(f, p).up ==> f.left && p.pitch > 15.0
    ensures !f.down && Step(f, p).down ==> f.up && p.pitch < -10.0
    ensures Ordered(f) ==>
      && (FrontGuard(f, p) ==> Step(f, p).front)
      && (RightGuard(f, p) ==> Step(f, p).right)
      && (LeftGuard(f, p) ==> Step(f, p).left)
      && (UpGuard(f, p) ==> Step(f, p).up)
      && (DownGuard(f, p) ==> Step(f, p).down)
  {
  }

  /** `_isDone` is set by the call after the one that completes the flags: an
      update that finds any flag unset cannot complete the challenge. */
  lemma DoneLagsOneUpdate(s: ChallengeState, p: Pose)
    requires !s.done
    ensures Update(s, p).done <==> AllSet(s.flags)
  {
  }

  // ---------------------------------------------------------------------------
  // Runs of updates.

  /** The flags of a run depend only on the flags it starts from; `_isDone` does
      not steer them. */
  lemma {:induction false} RunFlagsIgnoreDone(s: ChallengeState, t: ChallengeState, poses: seq<Pose>)
    requires s.flags == t.flags
    ensures Run(s, poses).flags == Run(t, poses).flags
    decreases |poses|
  {
    if poses != [] {
      RunFlagsIgnoreDone(Update(s, poses[0]), Update(t, poses[0]), poses[1..]);
    }
  }

  /** After `resetStatus` the flags evolve as in a fresh view model; the
      completion flag alone remembers an earlier success. */
  lemma ResetThenRunFlagsAsFresh(s: ChallengeState, poses: seq<Pose>)
    ensures Run(Reset(s), poses).flags == Run(Initial, poses).flags
    ensures s.done ==> Run(Reset(s), poses).done
  {
    RunFlagsIgnoreDone(Reset(s), Initial, poses);
  }

  /** A run extended by one pose is that run followed by one more update. */
  lemma {:induction false} RunSnoc(s: ChallengeState, poses: seq<Pose>, p: Pose)
    ensures Run(s, poses + [p]) == Update(Run(s, poses), p)
    decreases |poses|
  {
    if poses != [] {
      assert (poses + [p])[1..] == poses[1..] + [p];
      RunSnoc(Update(s, poses[0]), poses[1..], p);
    }
  }

  // ---------------------------------------------------------------------------
  // The challenge played through.

  /** Straight, right, left, up, down in that order earn the five flags one by
      one; `_isDone` follows with the next update, whatever its pose. */
  lemma FullChallenge(next: Pose)
    ensures Run(Initial, [Pose(0.0, 0.0)]).flags == FlagsAt(1)
    ensures Run(Initial, [Pose(0.0, 0.0), Pose(20.0, 0.0)]).flags == FlagsAt(2)
    ensures Run(Initial, [Pose(0.0, 0.0), Pose(20.0, 0.0), Pose(-20.0, 0.0)]).flags == FlagsAt(3)
    ensures Run(Initial, [Pose(0.0, 0.0), Pose(20.0, 0.0), Pose(-20.0, 0.0), Pose(0.0, 20.0)]).flags == FlagsAt(4)
    ensures Run(Initial, [Pose(0.0, 0.0), Pose(20.0, 0.0), Pose(-20.0, 0.0), Pose(0.0, 20.0), Pose(0.0, -15.0)])
            == ChallengeState(AllFlags, false)
    ensures Run(Initial, [Pose(0.0, 0.0), Pose(20.0, 0.0), Pose(-20.0, 0.0), Pose(0.0, 20.0), Pose(0.0, -15.0), next])
            == ChallengeState(AllFlags, true)
  {
    var five := [Pose(0.0, 0.0), Pose(20.0, 0.0), Pose(-20.0, 0.0), Pose(0.0, 20.0), Pose(0.0, -15.0)];
    RunSnoc(Initial, five, next);
    assert five + [next] == [Pose(0.0, 0.0), Pose(20.0, 0.0), Pose(-20.0, 0.0), Pose(0.0, 20.0), Pose(0.0, -15.0), next];
  }

  /** Turning left before turning right earns nothing. */
  lemma LeftBeforeRightIgnored()
    ensures Run(Initial, [Pose(0.0, 0.0), Pose(-20.0, 0.0)]).flags == FlagsAt(1)
  {
  }
}
