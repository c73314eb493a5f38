/** The command streams of drawCannon and drawRobot written out in source
    order, one command per source line, with a called routine contributing
    its own stream. The lemmas show that the nested traces of `Robot` send
    exactly these streams, so the push/pop facts proved about the traces
    are facts about the routines as written. */
module Streams {
  import opened Geometry
  import opened Kinematics
  import opened Scene
  import opened TransformStack
  import opened Traces
  import opened Robot

  /* What each idiom of `Traces` sends, followed by a continuation `k`. */

  lemma ScopeThen(body: Trace, k: seq<Op>)
    ensures Flatten(Scope(body)) + k == [Push] + (Flatten(body) + ([Pop] + k))
  {
    assert Flatten(Scope(body)) == [Push] + Flatten(body) + [Pop] + [];
  }

  lemma UnderThen(x: Xform, body: Trace, k: seq<Op>)
    ensures Flatten(Under(x, body)) + k == [Mult(x)] + (Flatten(body) + k)
  {
  }

  lemma ThenThen(a: Trace, b: Trace, k: seq<Op>)
    ensures Flatten(Then(a, b)) + k == Flatten(a) + (Flatten(b) + k)
  {
  }

  lemma ShapeThen(part: Part, prim: Prim, k: seq<Op>)
    ensures Flatten(Shape(part, prim)) + k == [Draw(part, prim)] + k
  {
    assert Flatten(Shape(part, prim)) == [Draw(part, prim)] + [];
  }

  /** A push/pop pair around a pivot and `body`. */
  lemma PivotThen(pv: Pivot, body: Trace, k: seq<Op>)
    ensures Flatten(Scope(Pivoted(pv, body))) + k
         == [Push] + ([Mult(Translation(pv.to))] + ([Mult(Rotation(pv.angle, pv.axis))] +
            ([Mult(Translation(pv.back))] + (Flatten(body) + ([Pop] + k)))))
  {
    var inner := Under(Translation(pv.back), body);
    var turned := Under(Rotation(pv.angle, pv.axis), inner);
    ScopeThen(Pivoted(pv, body), k);
    UnderThen(Translation(pv.to), turned, [Pop] + k);
    UnderThen(Rotation(pv.angle, pv.axis), inner, [Pop] + k);
    UnderThen(Translation(pv.back), body, [Pop] + k);
  }

  /** drawCannon, lines 306-343: the cannon pivot, the barrel, the muzzle
      pivot and ring, inside six push/pop pairs. */
  function CannonStream(): seq<Op> {
    [Push] +                                                                    // 306
    ([Mult(Translation(Vec3(0.0, 0.05 * BodyLength, 0.1 * BodyWidth)))] +       // 307
    ([Mult(Rotation(JointAngle(CannonJoint), ZAxis))] +                         // 308
    ([Mult(Translation(Vec3(0.0, -(0.05 * BodyLength), -(0.1 * BodyWidth))))] + // 309
    (BarrelStream() +                                                           // 311-342
     [Pop]))))                                                                  // 343
  }

  /** The barrel and muzzle ring, lines 311-342. */
  function BarrelStream(): seq<Op> {
    [Push] +                                                                    // 311
    ([Mult(Translation(Vec3(0.0, 0.05 * BodyLength, 0.1 * BodyWidth)))] +       // 313
    ([Push] +                                                                   // 315
    ([Draw(Cannon, Cylinder(CannonRadius, CannonRadius, CannonHeight))] +       // 320
    ([Push] +                                                                   // 322
    ([Mult(Translation(Vec3(0.0, 0.2 * BodyLength, 0.68 * BodyWidth)))] +       // 323
    ([Mult(Rotation(Fixed(-90.0), XAxis))] +                                    // 324
    ([Mult(Translation(Vec3(0.0, -(0.2 * BodyLength), -(0.68 * BodyWidth))))] + // 325
    ([Push] +                                                                   // 327
    ([Mult(Translation(Vec3(0.0, 0.2 * BodyLength, 0.68 * BodyWidth)))] +       // 329
    ([Push] +                                                                   // 331
    ([Draw(Cannon, Cylinder(0.4 * CannonRadius, 0.4 * CannonRadius, 0.1 * CannonHeight))] + // 335
    ([Pop] +                                                                    // 337
    ([Pop] +                                                                    // 338
    ([Pop] +                                                                    // 339
    ([Pop] +                                                                    // 341
     [Pop])))))))))))))))                                                       // 342
  }

  /** The shape of the barrel routine, for any offsets, primitives and
      muzzle pivot, followed by `k`. */
  lemma BarrelThen(place: Vec3, barrel: Prim, pv: Pivot, ringPlace: Vec3, ring: Prim, k: seq<Op>)
    ensures Flatten(Scope(Under(Translation(place), Scope(Then(Shape(Cannon, barrel),
              Scope(Pivoted(pv, Scope(Under(Translation(ringPlace), Scope(Shape(Cannon, ring))))))))))) + k
         == [Push] + ([Mult(Translation(place))] + ([Push] + ([Draw(Cannon, barrel)] +
            ([Push] + ([Mult(Translation(pv.to))] + ([Mult(Rotation(pv.angle, pv.axis))] +
            ([Mult(Translation(pv.back))] +
            ([Push] + ([Mult(Translation(ringPlace))] + ([Push] + ([Draw(Cannon, ring)] +
            ([Pop] + ([Pop] + ([Pop] + ([Pop] + ([Pop] + k))))))))))))))))
  {
    var ringT := Scope(Under(Translation(ringPlace), Scope(Shape(Cannon, ring))));
    var muzzle := Scope(Pivoted(pv, ringT));
    var k1 := [Pop] + k;
    var k2 := [Pop] + k1;
    var k3 := [Pop] + k2;
    var k4 := [Pop] + k3;
    ScopeThen(Under(Translation(place), Scope(Then(Shape(Cannon, barrel), muzzle))), k);
    UnderThen(Translation(place), Scope(Then(Shape(Cannon, barrel), muzzle)), k1);
    ScopeThen(Then(Shape(Cannon, barrel), muzzle), k1);
    ThenThen(Shape(Cannon, barrel), muzzle, k2);
    ShapeThen(Cannon, barrel, Flatten(muzzle) + k2);
    PivotThen(pv, ringT, k2);
    ScopeThen(Under(Translation(ringPlace), Scope(Shape(Cannon, ring))), k3);
    UnderThen(Translation(ringPlace), Scope(Shape(Cannon, ring)), k4);
    ScopeThen(Shape(Cannon, ring), k4);
    ShapeThen(Cannon, ring, [Pop] + k4);
  }

  /** The program's barrel trace sends the stream of lines 311-342. */
  lemma BarrelStreamMatches()
    ensures Flatten(CannonBarrel()) == BarrelStream()
  {
    BarrelThen(Vec3(0.0, 0.05 * BodyLength, 0.1 * BodyWidth), Cylinder(CannonRadius, CannonRadius, CannonHeight),
               MuzzlePivot, Vec3(0.0, 0.2 * BodyLength, 0.68 * BodyWidth),
               Cylinder(0.4 * CannonRadius, 0.4 * CannonRadius, 0.1 * CannonHeight), []);
    assert Flatten(CannonBarrel()) == Flatten(CannonBarrel()) + [];
    assert [Pop] + [] == [Pop];
  }

  /** The nested drawCannon trace, built on the program's barrel, sends
      exactly the stream of lines 306-343. */
  lemma CannonStreamMatches(rt: Routines)
    requires WellShaped(rt) && rt.cannonBarrel == CannonBarrel()
    ensures Flatten(DrawCannon(rt)) == CannonStream()
  {
    PivotThen(CannonPivot, rt.cannonBarrel, []);
    BarrelStreamMatches();
    assert Flatten(DrawCannon(rt)) == Flatten(DrawCannon(rt)) + [];
  }

  /** drawRobot, lines 228-260, as written: four pushes and five pops
      around the calls of the part routines. */
  function RobotStream(rt: Routines): seq<Op>
    requires WellShaped(rt)
  {
    [Push] +                                                                    // 228
    ([Mult(Rotation(JointAngle(Base), YAxis))] +                                // 229
    ([Push] +                                                                   // 231
    ([Mult(Rotation(JointAngle(Hip), YAxis))] +                                 // 232
    (Flatten(rt.body) +                                                         // 233
    (Flatten(rt.head) +                                                         // 234
    (Flatten(DrawCannon(rt)) +                                                  // 235
    ([Pop] +                                                                    // 236
    ([Pop] +                                                                    // 238
    ([Push] +                                                                   // 241
    ([Mult(Rotation(JointAngle(Base), YAxis))] +                                // 243
    (Flatten(rt.lowerBody) +                                                    // 244
    (Flatten(rt.leftUpperLeg) +                                                 // 246
    ([Push] +                                                                   // 247
    ([Mult(Translation(Vec3(LegX, -0.79 * BodyWidth, -0.055 * BodyWidth)))] +   // 248
    ([Mult(Rotation(JointAngle(Knee), XAxis))] +                                // 249
    ([Mult(Translation(Vec3(-LegX, -(-0.79 * BodyWidth), -(-0.055 * BodyWidth))))] + // 250
    (Flatten(rt.leftLowerLeg) +                                                 // 251
    (Flatten(rt.leftFoot) +                                                     // 252
    ([Pop] +                                                                    // 253
    (Flatten(rt.rightUpperLeg) +                                                // 255
    (Flatten(rt.rightLowerLeg) +                                                // 256
    (Flatten(rt.rightFoot) +                                                    // 257
    ([Pop] +                                                                    // 259
     [Pop])))))))))))))))))))))))                                               // 260
  }

  /** The upper assembly, lines 228-238, followed by `k`. */
  lemma UpperStream(rt: Routines, k: seq<Op>)
    requires WellShaped(rt)
    ensures Flatten(UpperAssembly(rt)) + k
         == [Push] + ([Mult(Rotation(JointAngle(Base), YAxis))] +
            ([Push] + ([Mult(Rotation(JointAngle(Hip), YAxis))] +
            (Flatten(rt.body) + (Flatten(rt.head) + (Flatten(DrawCannon(rt)) + ([Pop] + ([Pop] + k))))))))
  {
    var rb := Rotation(JointAngle(Base), YAxis);
    var rh := Rotation(JointAngle(Hip), YAxis);
    var k1 := [Pop] + k;
    var k2 := [Pop] + k1;
    ScopeThen(Under(rb, Scope(Under(rh, Torso(rt)))), k);
    UnderThen(rb, Scope(Under(rh, Torso(rt))), k1);
    ScopeThen(Under(rh, Torso(rt)), k1);
    UnderThen(rh, Torso(rt), k2);
    ThenThen(rt.body, Then(rt.head, DrawCannon(rt)), k2);
    ThenThen(rt.head, DrawCannon(rt), k2);
  }

  /** The base assembly, lines 241-259, followed by `k`. */
  lemma BaseStream(rt: Routines, k: seq<Op>)
    requires WellShaped(rt)
    ensures Flatten(BaseAssembly(rt)) + k
         == [Push] + ([Mult(Rotation(JointAngle(Base), YAxis))] +
            (Flatten(rt.lowerBody) + (Flatten(rt.leftUpperLeg) +
            ([Push] + ([Mult(Translation(KneePivot.to))] + ([Mult(Rotation(KneePivot.angle, KneePivot.axis))] +
            ([Mult(Translation(KneePivot.back))] +
            (Flatten(rt.leftLowerLeg) + (Flatten(rt.leftFoot) + ([Pop] +
            (Flatten(rt.rightUpperLeg) + (Flatten(rt.rightLowerLeg) + (Flatten(rt.rightFoot) + ([Pop] + k))))))))))))))
  {
    var rb := Rotation(JointAngle(Base), YAxis);
    var k1 := [Pop] + k;
    var right := Flatten(RightLeg(rt)) + k1;
    ScopeThen(Under(rb, BaseBlock(rt)), k);
    UnderThen(rb, BaseBlock(rt), k1);
    ThenThen(rt.lowerBody, Then(LeftLeg(rt), RightLeg(rt)), k1);
    ThenThen(LeftLeg(rt), RightLeg(rt), k1);
    ThenThen(rt.leftUpperLeg, KneeBlock(rt), right);
    PivotThen(KneePivot, Then(rt.leftLowerLeg, rt.leftFoot), right);
    ThenThen(rt.leftLowerLeg, rt.leftFoot, [Pop] + right);
    ThenThen(rt.rightUpperLeg, Then(rt.rightLowerLeg, rt.rightFoot), k1);
    ThenThen(rt.rightLowerLeg, rt.rightFoot, k1);
  }

  /** The stream of lines 228-260 is the balanced drawRobot trace's stream
      followed by exactly one more pop: the last `glPopMatrix` is the one
      with no push to match. */
  lemma RobotStreamMatches(rt: Routines)
    requires WellShaped(rt)
    ensures RobotStream(rt) == Flatten(DrawRobotWith(rt)) + [Pop]
  {
    BaseStream(rt, [Pop]);
    UpperStream(rt, Flatten(BaseAssembly(rt)) + [Pop]);
    ThenThen(UpperAssembly(rt), BaseAssembly(rt), [Pop]);
  }
}
