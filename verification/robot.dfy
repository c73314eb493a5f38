/** The robot's draw routines as traces. Every dimension derives from the
    body width, length and depth; all arithmetic is exact. */
module Robot {
  import opened Geometry
  import opened Kinematics
  import opened Scene
  import opened TransformStack
  import opened Traces

  const BodyWidth: real := 10.0
  const BodyLength: real := 2.0
  const BodyDepth: real := 6.0

  const HeadWidth: real := BodyWidth
  const HeadLength: real := BodyLength * 2.0
  const HeadDepth: real := BodyDepth

  const CannonHeight: real := BodyWidth * 0.7
  const CannonRadius: real := BodyLength / 4.0

  const UpperLegLength: real := BodyLength * 2.0
  const UpperLegWidth: real := 0.15 * BodyWidth

  const LowerLegLength: real := UpperLegLength * 1.2
  const LowerLegWidth: real := UpperLegWidth * 0.9

  const ClawWidth: real := 0.5 * LowerLegWidth
  const ClawLength: real := 0.3 * LowerLegLength

  /** Fixed leg poses; no input changes them. */
  const UpperLegAngle: real := 30.0
  const LowerLegAngle: real := -60.0

  /** A rotation about an off-origin point: translate by `to`, rotate,
      translate by `back`. The source writes both offsets out. */
  datatype Pivot = Pivot(to: Vec3, angle: Angle, axis: Vec3, back: Vec3)

  function Pivoted(pv: Pivot, body: Trace): Trace {
    Under(Translation(pv.to), Under(Rotation(pv.angle, pv.axis), Under(Translation(pv.back), body)))
  }

  /** The hip-side offset of the left leg, shared by hip, knee and shin. */
  const LegX: real := 0.25 * BodyWidth + -0.25 * UpperLegWidth

  const CannonPivot := Pivot(Vec3(0.0, 0.05 * BodyLength, 0.1 * BodyWidth), JointAngle(CannonJoint), ZAxis,
                             Vec3(0.0, -(0.05 * BodyLength), -(0.1 * BodyWidth)))
  const MuzzlePivot := Pivot(Vec3(0.0, 0.2 * BodyLength, 0.68 * BodyWidth), Fixed(-90.0), XAxis,
                             Vec3(0.0, -(0.2 * BodyLength), -(0.68 * BodyWidth)))
  const KneePivot := Pivot(Vec3(LegX, -0.79 * BodyWidth, -0.055 * BodyWidth), JointAngle(Knee), XAxis,
                           Vec3(-LegX, -(-0.79 * BodyWidth), -(-0.055 * BodyWidth)))
  const LeftHipPivot := Pivot(Vec3(LegX, -0.5 * BodyWidth, -0.075 * BodyWidth), Fixed(UpperLegAngle), XAxis,
                              Vec3(-LegX, -(-0.5 * BodyWidth), -(-0.075 * BodyWidth)))
  const RightHipPivot := Pivot(Vec3(-LegX, -0.5 * BodyWidth, -0.075 * BodyWidth), Fixed(UpperLegAngle), XAxis,
                               Vec3(LegX, 0.5 * BodyWidth, 0.075 * BodyWidth))
  const LeftShinPivot := Pivot(Vec3(LegX, -0.79 * BodyWidth, -0.055 * BodyWidth), Fixed(LowerLegAngle), XAxis,
                               Vec3(-LegX, -(-0.79 * BodyWidth), -(-0.055 * BodyWidth)))
  const RightShinPivot := Pivot(Vec3(-LegX, -0.79 * BodyWidth, -0.055 * BodyWidth), Fixed(LowerLegAngle), XAxis,
                                Vec3(LegX, 0.79 * BodyWidth, 0.055 * BodyWidth))

  /** push; scale(size); unit cube; pop */
  function Box(part: Part, size: Vec3): (r: Trace)
    ensures Rigid(r, {part})
  {
    Scope(Under(Scaling(size), Shape(part, Cube)))
  }

  /** push; translate(offset); push; quadric; pop; pop */
  function Placed(part: Part, offset: Vec3, prim: Prim): (r: Trace)
    ensures Rigid(r, {part})
  {
    Scope(Under(Translation(offset), Scope(Shape(part, prim))))
  }

  /** A leg segment: push; pivot; push; translate(place); box; pop; pop */
  function Limb(part: Part, pv: Pivot, place: Vec3, size: Vec3): (r: Trace)
    ensures pv.angle.Fixed? ==> Rigid(r, {part})
  {
    Scope(Pivoted(pv, Scope(Under(Translation(place), Box(part, size)))))
  }

  const ClawSize: Vec3 := Vec3(ClawWidth, ClawLength, ClawWidth)

  /** A claw pointing forward: push; translate; push; rotate 90 about x; box; pop; pop */
  function FrontClaw(part: Part, offset: Vec3): (r: Trace)
    ensures Rigid(r, {part})
  {
    Scope(Under(Translation(offset), Scope(Under(Rotation(Fixed(90.0), XAxis), Box(part, ClawSize)))))
  }

  /** A claw pointing sideways: as `FrontClaw`, with a further 90-degree
      turn about z in its own push/pop pair. */
  function SideClaw(part: Part, offset: Vec3): (r: Trace)
    ensures Rigid(r, {part})
  {
    Scope(Under(Translation(offset),
      Scope(Under(Rotation(Fixed(90.0), XAxis),
        Scope(Under(Rotation(Fixed(90.0), ZAxis), Box(part, ClawSize)))))))
  }

  /** Lines 264-275. */
  function DrawBody(): (r: Trace)
    ensures Rigid(r, {Body})
  {
    Box(Body, Vec3(BodyWidth, BodyLength, BodyDepth))
  }

  /** Lines 277-296: the head sits on top of the body. */
  function DrawHead(): (r: Trace)
    ensures Rigid(r, {Head})
  {
    Scope(Under(Translation(Vec3(0.0, 0.5 * BodyLength + 0.5 * HeadLength, 0.0)),
      Box(Head, Vec3(0.8 * BodyWidth, 0.6 * BodyWidth, 0.6 * BodyWidth))))
  }

  /** Lines 311-342: the barrel and, turned a further fixed -90 degrees in
      its own push/pop pair, the muzzle ring. */
  function CannonBarrel(): (r: Trace)
    ensures Rigid(r, {Cannon})
  {
    Scope(Under(Translation(Vec3(0.0, 0.05 * BodyLength, 0.1 * BodyWidth)),
      Scope(Then(Shape(Cannon, Cylinder(CannonRadius, CannonRadius, CannonHeight)),
        Scope(Pivoted(MuzzlePivot,
          Scope(Under(Translation(Vec3(0.0, 0.2 * BodyLength, 0.68 * BodyWidth)),
            Scope(Shape(Cannon, Cylinder(0.4 * CannonRadius, 0.4 * CannonRadius, 0.1 * CannonHeight)))))))))))
  }

  /** A push/pop pair around a pivot: a jointless body is carried by
      exactly the joint the pivot turns by, and no rotation leaks out. */
  lemma PivotedReach(pv: Pivot, body: Trace, j: Joint)
    requires Sealed(body) && Jointless(body)
    ensures JointReach(Scope(Pivoted(pv, body)), j)
         == if pv.angle == JointAngle(j) then Reach(PartsDrawn(body), {}, false)
            else Reach({}, PartsDrawn(body), false)
  {
    var inner := Under(Translation(pv.back), body);
    var turned := Under(Rotation(pv.angle, pv.axis), inner);
    JointlessReach(body, j);
    UnderReach(Translation(pv.back), body, j);
    UnderReach(Rotation(pv.angle, pv.axis), inner, j);
    UnderReach(Translation(pv.to), turned, j);
    ScopeReach(Pivoted(pv, body), j);
  }

  /** Lines 346-396: the hip cylinder and its two end disks, all turned
      90 degrees about y. */
  function DrawLowerBody(): (r: Trace)
    ensures Rigid(r, {LowerBody})
  {
    Scope(Under(Rotation(Fixed(90.0), YAxis),
      Then(Placed(LowerBody, Vec3(0.0, -1.5 * BodyLength, -0.15 * BodyWidth),
                  Cylinder(0.2 * BodyWidth, 0.2 * BodyWidth, 0.5 * BodyDepth)),
      Then(Placed(LowerBody, Vec3(0.0, -1.5 * BodyLength, 0.01 * BodyWidth), Disk(0.0, 0.19 * BodyWidth)),
           Placed(LowerBody, Vec3(0.0, -1.5 * BodyLength, 0.15 * BodyWidth), Disk(0.0, 0.19 * BodyWidth))))))
  }

  /** Lines 398-422. */
  function DrawLeftUpperLeg(): (r: Trace)
    ensures Rigid(r, {LeftUpperLeg})
  {
    Limb(LeftUpperLeg, LeftHipPivot, Vec3(LegX, -0.5 * BodyWidth, -0.075 * BodyWidth),
         Vec3(UpperLegWidth, UpperLegLength, UpperLegWidth))
  }

  /** Lines 424-448. */
  function DrawRightUpperLeg(): (r: Trace)
    ensures Rigid(r, {RightUpperLeg})
  {
    Limb(RightUpperLeg, RightHipPivot, Vec3(-LegX, -0.5 * BodyWidth, -0.075 * BodyWidth),
         Vec3(UpperLegWidth, UpperLegLength, UpperLegWidth))
  }

  /** Lines 450-474. */
  function DrawLeftLowerLeg(): (r: Trace)
    ensures Rigid(r, {LeftLowerLeg})
  {
    Limb(LeftLowerLeg, LeftShinPivot, Vec3(LegX, -0.79 * BodyWidth, -0.055 * BodyWidth),
         Vec3(LowerLegWidth, LowerLegLength, LowerLegWidth))
  }

  /** Lines 476-500. */
  function DrawRightLowerLeg(): (r: Trace)
    ensures Rigid(r, {RightLowerLeg})
  {
    Limb(RightLowerLeg, RightShinPivot, Vec3(-LegX, -0.79 * BodyWidth, -0.055 * BodyWidth),
         Vec3(LowerLegWidth, LowerLegLength, LowerLegWidth))
  }

  /** Lines 502-615: ankle cylinder and disks, the foot block and three
      claws. The offsets are the source's, double negations included. */
  function DrawLeftFoot(): (r: Trace)
    ensures Rigid(r, {LeftFoot})
  {
    Then(Scope(Under(Rotation(Fixed(90.0), YAxis),
      Then(Placed(LeftFoot, Vec3(-1.5 * LowerLegWidth, -4.1 * BodyLength, LowerLegWidth),
                  Cylinder(0.3 * LowerLegWidth, 0.3 * LowerLegWidth, 1.1 * LowerLegWidth)),
      Then(Placed(LeftFoot, Vec3(-1.5 * LowerLegWidth, -4.1 * BodyLength, -(-2.1 * LowerLegWidth)),
                  Disk(0.0, 0.29 * LowerLegWidth)),
           Placed(LeftFoot, Vec3(-1.5 * LowerLegWidth, -4.1 * BodyLength, -(-1.1 * LowerLegWidth)),
                  Disk(0.0, 0.29 * LowerLegWidth)))))),
    Then(Scope(Under(Translation(Vec3(-(-1.55 * LowerLegWidth), -5.0 * BodyLength, 0.6 * LowerLegWidth)),
      Box(LeftFoot, Vec3(LowerLegWidth, 0.3 * LowerLegLength, LowerLegWidth)))),
    Then(FrontClaw(LeftFoot, Vec3(1.55 * LowerLegWidth, -5.3 * BodyLength, 1.3 * LowerLegWidth)),
    Then(SideClaw(LeftFoot, Vec3(2.2 * LowerLegWidth, -5.3 * BodyLength, 0.6 * LowerLegWidth)),
         SideClaw(LeftFoot, Vec3(0.9 * LowerLegWidth, -5.3 * BodyLength, 0.6 * LowerLegWidth))))))
  }

  /** Lines 617-730: the mirror image of the left foot. */
  function DrawRightFoot(): (r: Trace)
    ensures Rigid(r, {RightFoot})
  {
    Then(Scope(Under(Rotation(Fixed(90.0), YAxis),
      Then(Placed(RightFoot, Vec3(-1.5 * LowerLegWidth, -4.1 * BodyLength, -2.1 * LowerLegWidth),
                  Cylinder(0.3 * LowerLegWidth, 0.3 * LowerLegWidth, 1.1 * LowerLegWidth)),
      Then(Placed(RightFoot, Vec3(-1.5 * LowerLegWidth, -4.1 * BodyLength, -2.1 * LowerLegWidth),
                  Disk(0.0, 0.29 * LowerLegWidth)),
           Placed(RightFoot, Vec3(-1.5 * LowerLegWidth, -4.1 * BodyLength, -1.1 * LowerLegWidth),
                  Disk(0.0, 0.29 * LowerLegWidth)))))),
    Then(Scope(Under(Translation(Vec3(-1.55 * LowerLegWidth, -5.0 * BodyLength, 0.6 * LowerLegWidth)),
      Box(RightFoot, Vec3(LowerLegWidth, 0.3 * LowerLegLength, LowerLegWidth)))),
    Then(FrontClaw(RightFoot, Vec3(-1.55 * LowerLegWidth, -5.3 * BodyLength, 1.3 * LowerLegWidth)),
    Then(SideClaw(RightFoot, Vec3(-2.2 * LowerLegWidth, -5.3 * BodyLength, 0.6 * LowerLegWidth)),
         SideClaw(RightFoot, Vec3(-0.9 * LowerLegWidth, -5.3 * BodyLength, 0.6 * LowerLegWidth))))))
  }

  /** The routines drawRobot calls, as traces. The assemblies below are
      stated over any such record, so that what they prove rests on the
      routines' contracts alone; `SourceRoutines` is the record the
      program draws. */
  datatype Routines = Routines(
    body: Trace, head: Trace, cannonBarrel: Trace, lowerBody: Trace,
    leftUpperLeg: Trace, rightUpperLeg: Trace, leftLowerLeg: Trace,
    rightLowerLeg: Trace, leftFoot: Trace, rightFoot: Trace)

  /** Each routine is sealed, jointless and draws only its own part. */
  predicate WellShaped(rt: Routines) {
    Rigid(rt.body, {Body}) && Rigid(rt.head, {Head}) && Rigid(rt.cannonBarrel, {Cannon}) &&
    Rigid(rt.lowerBody, {LowerBody}) &&
    Rigid(rt.leftUpperLeg, {LeftUpperLeg}) && Rigid(rt.rightUpperLeg, {RightUpperLeg}) &&
    Rigid(rt.leftLowerLeg, {LeftLowerLeg}) && Rigid(rt.rightLowerLeg, {RightLowerLeg}) &&
    Rigid(rt.leftFoot, {LeftFoot}) && Rigid(rt.rightFoot, {RightFoot})
  }

  function SourceRoutines(): (r: Routines)
    ensures WellShaped(r)
  {
    Routines(DrawBody(), DrawHead(), CannonBarrel(), DrawLowerBody(),
             DrawLeftUpperLeg(), DrawRightUpperLeg(), DrawLeftLowerLeg(),
             DrawRightLowerLeg(), DrawLeftFoot(), DrawRightFoot())
  }

  /** Lines 298-344: the barrel turns about its own pivot by the cannon
      angle. */
  function DrawCannon(rt: Routines): (r: Trace)
    requires WellShaped(rt)
    ensures Sealed(r) && PartsDrawn(r) == {Cannon}
  {
    Scope(Pivoted(CannonPivot, rt.cannonBarrel))
  }

  /** The cannon joint turns the cannon and nothing else does. */
  lemma CannonReach(rt: Routines, j: Joint)
    requires WellShaped(rt)
    ensures JointReach(DrawCannon(rt), j)
         == if j == CannonJoint then Reach({Cannon}, {}, false) else Reach({}, {Cannon}, false)
  {
    PivotedReach(CannonPivot, rt.cannonBarrel, j);
  }

  /** Lines 233-235: body, head and cannon, drawn one after another;
      each routine keeps its own transforms inside its push/pop pairs. */
  function Torso(rt: Routines): (r: Trace)
    requires WellShaped(rt)
    ensures Sealed(r) && PartsDrawn(r) == UpperAssemblyParts
  {
    Then(rt.body, Then(rt.head, DrawCannon(rt)))
  }

  lemma TorsoReach(rt: Routines, j: Joint)
    requires WellShaped(rt)
    ensures JointReach(Torso(rt), j)
         == if j == CannonJoint then Reach({Cannon}, {Body, Head}, false)
            else Reach({}, UpperAssemblyParts, false)
  {
    JointlessReach(rt.body, j);
    JointlessReach(rt.head, j);
    CannonReach(rt, j);
    ThenReach(rt.head, DrawCannon(rt), j);
    ThenReach(rt.body, Then(rt.head, DrawCannon(rt)), j);
  }

  /** A push/pop pair around a rotation: the body is carried by the
      rotation's joint, or else by whatever carried it before. */
  lemma TurnedReach(x: Xform, body: Trace, j: Joint)
    requires Sealed(body)
    ensures JointReach(Scope(Under(x, body)), j)
         == if RotatesBy(x, j) then Reach(PartsDrawn(body), {}, false) else JointReach(body, j)
  {
    UnderReach(x, body, j);
    ScopeReach(Under(x, body), j);
  }

  /** Lines 228-238: the base and hip rotations, then the torso. */
  function UpperAssembly(rt: Routines): (r: Trace)
    requires WellShaped(rt)
    ensures Sealed(r) && PartsDrawn(r) == UpperAssemblyParts
  {
    Scope(Under(Rotation(JointAngle(Base), YAxis),
      Scope(Under(Rotation(JointAngle(Hip), YAxis), Torso(rt)))))
  }

  /** Which joints turn which parts of the upper assembly: the base and
      hip turn all of it, the cannon joint only the cannon, the knee
      nothing. */
  lemma UpperAssemblyReach(rt: Routines, j: Joint)
    requires WellShaped(rt)
    ensures JointReach(UpperAssembly(rt), j)
         == match j
            case Base => Reach(UpperAssemblyParts, {}, false)
            case Hip => Reach(UpperAssemblyParts, {}, false)
            case CannonJoint => Reach({Cannon}, {Body, Head}, false)
            case Knee => Reach({}, UpperAssemblyParts, false)
  {
    var hipped := Scope(Under(Rotation(JointAngle(Hip), YAxis), Torso(rt)));
    TorsoReach(rt, j);
    TurnedReach(Rotation(JointAngle(Hip), YAxis), Torso(rt), j);
    TurnedReach(Rotation(JointAngle(Base), YAxis), hipped, j);
  }

  /** The knee pivot's block (lines 247-253): the left shin and foot. */
  function KneeBlock(rt: Routines): (r: Trace)
    requires WellShaped(rt)
    ensures Sealed(r) && PartsDrawn(r) == BelowLeftKnee
  {
    Scope(Pivoted(KneePivot, Then(rt.leftLowerLeg, rt.leftFoot)))
  }

  lemma KneeBlockReach(rt: Routines, j: Joint)
    requires WellShaped(rt)
    ensures JointReach(KneeBlock(rt), j)
         == if j == Knee then Reach(BelowLeftKnee, {}, false) else Reach({}, BelowLeftKnee, false)
  {
    PivotedReach(KneePivot, Then(rt.leftLowerLeg, rt.leftFoot), j);
  }

  /** The left leg: the thigh, then the knee block. */
  function LeftLeg(rt: Routines): (r: Trace)
    requires WellShaped(rt)
    ensures Sealed(r) && PartsDrawn(r) == {LeftUpperLeg, LeftLowerLeg, LeftFoot}
  {
    Then(rt.leftUpperLeg, KneeBlock(rt))
  }

  lemma LeftLegReach(rt: Routines, j: Joint)
    requires WellShaped(rt)
    ensures JointReach(LeftLeg(rt), j)
         == if j == Knee then Reach(BelowLeftKnee, {LeftUpperLeg}, false)
            else Reach({}, {LeftUpperLeg, LeftLowerLeg, LeftFoot}, false)
  {
    JointlessReach(rt.leftUpperLeg, j);
    KneeBlockReach(rt, j);
    ThenReach(rt.leftUpperLeg, KneeBlock(rt), j);
  }

  /** The right leg: thigh, shin and foot, none of them jointed. */
  function RightLeg(rt: Routines): (r: Trace)
    requires WellShaped(rt)
    ensures Rigid(r, {RightUpperLeg, RightLowerLeg, RightFoot})
  {
    Then(rt.rightUpperLeg, Then(rt.rightLowerLeg, rt.rightFoot))
  }

  /** The parts of the base assembly the knee does not carry. */
  const AboveLeftKnee: set<Part> := {LowerBody, LeftUpperLeg, RightUpperLeg, RightLowerLeg, RightFoot}

  /** Lines 244-257: lower body, left leg, right leg. */
  function BaseBlock(rt: Routines): (r: Trace)
    requires WellShaped(rt)
    ensures Sealed(r) && PartsDrawn(r) == BaseAssemblyParts
  {
    Then(rt.lowerBody, Then(LeftLeg(rt), RightLeg(rt)))
  }

  lemma BaseBlockReach(rt: Routines, j: Joint)
    requires WellShaped(rt)
    ensures JointReach(BaseBlock(rt), j)
         == if j == Knee then Reach(BelowLeftKnee, AboveLeftKnee, false)
            else Reach({}, BaseAssemblyParts, false)
  {
    JointlessReach(RightLeg(rt), j);
    LeftLegReach(rt, j);
    ThenReach(LeftLeg(rt), RightLeg(rt), j);
    JointlessReach(rt.lowerBody, j);
    ThenReach(rt.lowerBody, Then(LeftLeg(rt), RightLeg(rt)), j);
    if j == Knee {
      KneeSets();
    } else {
      StillSets();
    }
  }

  /** Set arithmetic for `BaseBlockReach`, kept apart from the trace facts. */
  lemma KneeSets()
    ensures {LowerBody} + ({LeftUpperLeg} + {RightUpperLeg, RightLowerLeg, RightFoot}) == AboveLeftKnee
    ensures {} + (BelowLeftKnee + {}) == BelowLeftKnee
  {
  }

  lemma StillSets()
    ensures {LowerBody} + ({LeftUpperLeg, LeftLowerLeg, LeftFoot} + {RightUpperLeg, RightLowerLeg, RightFoot}) == BaseAssemblyParts
  {
  }

  /** Lines 241-259: the base rotation only, then the base block. */
  function BaseAssembly(rt: Routines): (r: Trace)
    requires WellShaped(rt)
    ensures Sealed(r) && PartsDrawn(r) == BaseAssemblyParts
  {
    Scope(Under(Rotation(JointAngle(Base), YAxis), BaseBlock(rt)))
  }

  /** Which joints turn which parts of the base assembly: the base turns
      all of it, the knee exactly the left shin and foot, the hip and
      the cannon joint nothing. */
  lemma BaseAssemblyReach(rt: Routines, j: Joint)
    requires WellShaped(rt)
    ensures JointReach(BaseAssembly(rt), j)
         == match j
            case Base => Reach(BaseAssemblyParts, {}, false)
            case Knee => Reach(BelowLeftKnee, AboveLeftKnee, false)
            case Hip => Reach({}, BaseAssemblyParts, false)
            case CannonJoint => Reach({}, BaseAssemblyParts, false)
  {
    BaseBlockReach(rt, j);
    TurnedReach(Rotation(JointAngle(Base), YAxis), BaseBlock(rt), j);
  }

  /** Lines 226-259: the robot drawn from the routines `rt`, with its
      push/pop pairs balanced. */
  function DrawRobotWith(rt: Routines): (r: Trace)
    requires WellShaped(rt)
    ensures Sealed(r) && PartsDrawn(r) == AllParts
  {
    Then(UpperAssembly(rt), BaseAssembly(rt))
  }

  /** The parts a joint's angle turns: the base spins the whole robot, the
      hip the upper assembly, the knee the left shin and foot, the cannon
      joint the cannon. */
  function CarriedBy(j: Joint): set<Part> {
    match j
    case Base => AllParts
    case Hip => UpperAssemblyParts
    case Knee => BelowLeftKnee
    case CannonJoint => {Cannon}
  }

  /** The whole robot: each joint turns exactly the parts it carries and
      no other part, and leaves no rotation behind. */
  lemma DrawRobotWithReach(rt: Routines, j: Joint)
    requires WellShaped(rt)
    ensures JointReach(DrawRobotWith(rt), j) == Reach(CarriedBy(j), AllParts - CarriedBy(j), false)
  {
    UpperAssemblyReach(rt, j);
    BaseAssemblyReach(rt, j);
    ThenReach(UpperAssembly(rt), BaseAssembly(rt), j);
    RobotSets(j);
  }

  /** Set arithmetic for `DrawRobotWithReach`, kept apart from the trace
      facts. */
  lemma RobotSets(j: Joint)
    ensures j == Base ==> UpperAssemblyParts + BaseAssemblyParts == AllParts && AllParts - AllParts == {}
    ensures j == Hip ==> AllParts - UpperAssemblyParts == BaseAssemblyParts
    ensures j == Knee ==> UpperAssemblyParts + AboveLeftKnee == AllParts - BelowLeftKnee
    ensures j == CannonJoint ==> {Body, Head} + BaseAssemblyParts == AllParts - {Cannon}
  {
  }

  /** The robot the program draws. */
  function DrawRobot(): (r: Trace)
    ensures Sealed(r) && PartsDrawn(r) == AllParts
  {
    DrawRobotWith(SourceRoutines())
  }
}
