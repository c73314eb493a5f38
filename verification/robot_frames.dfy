/** What drawing the robot does to each part's frame: which joint
    carries which parts, that every pivot turns about its own point, and
    that every part routine leaves the transform stack as it found it. */
module RobotFrames {
  import opened Geometry
  import opened Kinematics
  import opened Scene
  import opened TransformStack
  import opened Traces
  import opened Robot

  /** Drawn from a frame that does not already contain joint `j` (the
      camera's), a part's frame contains `j`'s rotation exactly when `j`
      carries that part, and every part is drawn. This holds for any
      routines shaped like the source's; `SourceRoutines` is one such. */
  lemma DrawRobotJointsCarry(rt: Routines, f: Word, j: Joint)
    requires WellShaped(rt) && !Mentions(f, j)
    ensures forall e | e in Render(DrawRobotWith(rt), f).draws ::
              Mentions(e.frame, j) <==> e.part in CarriedBy(j)
    ensures PartsOf(Render(DrawRobotWith(rt), f).draws) == AllParts
  {
    DrawRobotWithReach(rt, j);
    JointReachSound(DrawRobotWith(rt), f, j);
    RenderDrawsPartsDrawn(DrawRobotWith(rt), f);
  }

  /** A part the joint does not carry is drawn in a frame free of it. */
  lemma UncarriedFrameIsFree(rt: Routines, f: Word, j: Joint, e: DrawEvent)
    requires WellShaped(rt) && !Mentions(f, j)
    requires e in Render(DrawRobotWith(rt), f).draws && e.part !in CarriedBy(j)
    ensures !Mentions(e.frame, j)
  {
    DrawRobotJointsCarry(rt, f, j);
  }

  /** Changing one joint angle moves no point of a part that joint does
      not carry; in particular the arrow keys with the hip selected leave
      the whole base assembly where it was. */
  lemma TurningMovesOnlyCarried(rt: Routines, f: Word, j: Joint, value: real,
                                rot: (real, Vec3) -> Mat3, pose: Pose, e: DrawEvent, v: Vec3)
    requires WellShaped(rt) && !Mentions(f, j)
    requires e in Render(DrawRobotWith(rt), f).draws && e.part !in CarriedBy(j)
    ensures Apply(e.frame, rot, WithJoint(pose, j, value), v) == Apply(e.frame, rot, pose, v)
  {
    UncarriedFrameIsFree(rt, f, j, e);
    ApplyIgnoresUnmentioned(e.frame, j, value, rot, pose, v);
  }

  /** Every pivot the routines write out. */
  const SourcePivots: set<Pivot> :=
    {CannonPivot, MuzzlePivot, KneePivot, LeftHipPivot, RightHipPivot, LeftShinPivot, RightShinPivot}

  /** Each pivot translates back by exactly the opposite of its forward
      offset, so the part it carries turns about the pivot point: that
      point stays where it is whatever the angle, the rotation and the
      frame above it. */
  lemma SourcePivotsFixTheirPoints(pv: Pivot, w: Word, rot: (real, Vec3) -> Mat3, pose: Pose)
    requires pv in SourcePivots
    ensures pv.back == Neg(pv.to)
    ensures Apply(w + [Translation(pv.to), Rotation(pv.angle, pv.axis), Translation(pv.back)], rot, pose, pv.to)
         == Apply(w, rot, pose, pv.to)
  {
    PivotRotatesAboutPoint(w, pv.to, pv.angle, pv.axis, pv.back, rot, pose, pv.to);
  }

  /** The part routines drawRobot calls: body, head, cannon, lower body,
      two upper legs, two lower legs, two feet. */
  function PartRoutines(rt: Routines): set<Trace>
    requires WellShaped(rt)
  {
    {rt.body, rt.head, DrawCannon(rt), rt.lowerBody, rt.leftUpperLeg, rt.rightUpperLeg,
     rt.leftLowerLeg, rt.rightLowerLeg, rt.leftFoot, rt.rightFoot}
  }

  /** Each part routine pushes as often as it pops, leaves the transform
      stack exactly as it found it and raises no stack error. */
  lemma PartRoutinesKeepStack(rt: Routines, t: Trace, m: Machine)
    requires WellShaped(rt) && Valid(m) && t in PartRoutines(rt)
    ensures Pushes(Flatten(t)) == Pops(Flatten(t))
    ensures Exec(Flatten(t), m).stack == m.stack
    ensures Exec(Flatten(t), m).underflows == m.underflows
  {
    assert Sealed(t);
    SealedRestoresStack(t, m);
    FlattenPushesEqualPops(t);
  }
}
