/** What an input does to the drawn robot: an arrow key moves exactly the
    parts the selected joint carries, and a cannon timer expiry moves the
    cannon and nothing else. The camera frame display draws under is any
    frame free of joint rotations. */
module InputEffects {
  import opened Geometry
  import opened Kinematics
  import opened Scene
  import TransformStack
  import opened Traces
  import opened Robot
  import opened RobotFrames
  import opened Controls

  /** A frame that no joint angle reaches, such as the camera's. */
  predicate Unjointed(f: Word) {
    forall j :: !Mentions(f, j)
  }

  /** An arrow key changes only the selected joint's angle, so it moves no
      point of a frame that joint does not reach. */
  lemma ArrowIgnoredBy(w: Word, s: State, sk: SpecialKey, rot: (real, Vec3) -> Mat3, v: Vec3)
    requires Selected(s.curJoint).Some? ==> !Mentions(w, Selected(s.curJoint).value)
    ensures Apply(w, rot, FunctionKeys(s, sk).pose, v) == Apply(w, rot, s.pose, v)
  {
    if !sk.OtherSpecial? && Selected(s.curJoint).Some? {
      var j := Selected(s.curJoint).value;
      var delta := if sk.LeftArrow? then -ArrowStep else ArrowStep;
      ApplyIgnoresUnmentioned(w, j, JointValue(s.pose, j) + delta, rot, s.pose, v);
    }
  }

  /** A timer expiry changes only the cannon angle. */
  lemma TimerIgnoredBy(w: Word, s: State, rot: (real, Vec3) -> Mat3, v: Vec3)
    requires s.armed > 0 && !Mentions(w, CannonJoint)
    ensures Apply(w, rot, CannonAnimationHandler(s).pose, v) == Apply(w, rot, s.pose, v)
  {
    if !s.stop {
      ApplyIgnoresUnmentioned(w, CannonJoint, s.pose.cannonAngle + CannonStep, rot, s.pose, v);
    }
  }

  /** An arrow key leaves every point of a part in place unless the
      selected joint carries that part; with the hip selected the whole
      base assembly stays put, with the knee everything but the left shin
      and foot. */
  lemma ArrowMovesOnlyCarried(rt: Routines, s: State, sk: SpecialKey, f: Word,
                              rot: (real, Vec3) -> Mat3, e: TransformStack.DrawEvent, v: Vec3)
    requires WellShaped(rt) && Unjointed(f) && e in Render(DrawRobotWith(rt), f).draws
    requires Selected(s.curJoint).Some? ==> e.part !in CarriedBy(Selected(s.curJoint).value)
    ensures Apply(e.frame, rot, FunctionKeys(s, sk).pose, v) == Apply(e.frame, rot, s.pose, v)
  {
    if Selected(s.curJoint).Some? {
      var j := Selected(s.curJoint).value;
      assert !Mentions(f, j);
      UncarriedFrameIsFree(rt, f, j, e);
    }
    ArrowIgnoredBy(e.frame, s, sk, rot, v);
  }

  /** Conversely, every part the selected joint carries is drawn in a
      frame that contains that joint's rotation, so the arrow keys change
      a rotation it is drawn under. Whether that moves a given point
      depends on the rotation function `rot`. */
  lemma ArrowReachesCarried(rt: Routines, s: State, f: Word, e: TransformStack.DrawEvent)
    requires WellShaped(rt) && Unjointed(f) && e in Render(DrawRobotWith(rt), f).draws
    requires Selected(s.curJoint).Some? && e.part in CarriedBy(Selected(s.curJoint).value)
    ensures Mentions(e.frame, Selected(s.curJoint).value)
  {
    var j := Selected(s.curJoint).value;
    assert !Mentions(f, j);
    DrawRobotJointsCarry(rt, f, j);
  }

  lemma OnlyCannonOnCannonJoint(p: Part)
    ensures p in CarriedBy(CannonJoint) <==> p == Cannon
  {
  }

  /** A timer expiry moves no point of any part but the cannon. */
  lemma TimerMovesOnlyCannon(rt: Routines, s: State, f: Word, rot: (real, Vec3) -> Mat3,
                             e: TransformStack.DrawEvent, v: Vec3)
    requires s.armed > 0
    requires WellShaped(rt) && Unjointed(f) && e in Render(DrawRobotWith(rt), f).draws && e.part != Cannon
    ensures Apply(e.frame, rot, CannonAnimationHandler(s).pose, v) == Apply(e.frame, rot, s.pose, v)
  {
    assert !Mentions(f, CannonJoint);
    OnlyCannonOnCannonJoint(e.part);
    UncarriedFrameIsFree(rt, f, CannonJoint, e);
    TimerIgnoredBy(e.frame, s, rot, v);
  }
}
