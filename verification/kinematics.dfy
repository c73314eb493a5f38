/** The transforms a draw routine issues (translate, rotate, scale), the
    joint angles a rotation may read, and what a composed transform does to
    a point. A rotation by angle `a` about `axis` is `rot(a, axis)`, a matrix
    the caller chooses, so nothing here depends on trigonometry. */
module Kinematics {
  import opened Geometry

  /** The joints whose angle is read at draw time. */
  datatype Joint = Base | Hip | Knee | CannonJoint

  /** The controllable angles, in degrees, read by the draw routines:
      `robotAngle`, `hipAngle`, `leftKneeAngle` and `cannonAngle`. */
  datatype Pose = Pose(robotAngle: real, hipAngle: real, leftKneeAngle: real, cannonAngle: real)

  /** The angle argument of a rotation: a constant, or the current value of
      a joint angle. */
  datatype Angle = Fixed(degrees: real) | JointAngle(joint: Joint)

  datatype Xform =
    | Translation(offset: Vec3)
    | Rotation(angle: Angle, axis: Vec3)
    | Scaling(factors: Vec3)

  /** A composed transform, outermost first: the frame reached by applying
      `w[0]`, then `w[1]`, ... to the current matrix, as the transform stack
      does (each call multiplies on the right). */
  type Word = seq<Xform>

  function JointValue(pose: Pose, j: Joint): real {
    match j
    case Base => pose.robotAngle
    case Hip => pose.hipAngle
    case Knee => pose.leftKneeAngle
    case CannonJoint => pose.cannonAngle
  }

  function AngleValue(a: Angle, pose: Pose): real {
    match a
    case Fixed(d) => d
    case JointAngle(j) => JointValue(pose, j)
  }

  /** `pose` with joint `j` set to `value` and every other angle unchanged. */
  function WithJoint(pose: Pose, j: Joint, value: real): (r: Pose)
    ensures JointValue(r, j) == value
    ensures forall k :: k != j ==> JointValue(r, k) == JointValue(pose, k)
  {
    match j
    case Base => pose.(robotAngle := value)
    case Hip => pose.(hipAngle := value)
    case Knee => pose.(leftKneeAngle := value)
    case CannonJoint => pose.(cannonAngle := value)
  }

  function XformApply(x: Xform, rot: (real, Vec3) -> Mat3, pose: Pose, v: Vec3): Vec3 {
    match x
    case Translation(t) => Add(t, v)
    case Rotation(a, axis) => MatVec(rot(AngleValue(a, pose), axis), v)
    case Scaling(s) => Hadamard(s, v)
  }

  /** Where the frame `w` puts the point `v` of its local coordinates. */
  function Apply(w: Word, rot: (real, Vec3) -> Mat3, pose: Pose, v: Vec3): Vec3
    decreases |w|
  {
    if |w| == 0 then v
    else XformApply(w[0], rot, pose, Apply(w[1..], rot, pose, v))
  }

  predicate RotatesBy(x: Xform, j: Joint) {
    x.Rotation? && x.angle == JointAngle(j)
  }

  /** A rotation whose angle is some joint's: it moves with the pose. */
  predicate Turning(x: Xform) {
    x.Rotation? && x.angle.JointAngle?
  }

  /** The frame `w` contains a rotation by joint `j`'s angle. */
  predicate Mentions(w: Word, j: Joint) {
    exists x :: x in w && RotatesBy(x, j)
  }

  /** Composing frames composes their effect on points. */
  lemma {:induction false} ApplyAppend(a: Word, b: Word, rot: (real, Vec3) -> Mat3, pose: Pose, v: Vec3)
    ensures Apply(a + b, rot, pose, v) == Apply(a, rot, pose, Apply(b, rot, pose, v))
    decreases |a|
  {
    if |a| > 0 {
      assert (a + b)[0] == a[0];
      assert (a + b)[1..] == a[1..] + b;
      ApplyAppend(a[1..], b, rot, pose, v);
    } else {
      assert a + b == b;
    }
  }

  /** The pivot idiom `translate(p); rotate(a, axis); translate(q)` with
      q = -p is a rotation about the point p: it sends v to p + R(v - p).
      In particular it keeps p where it is, whatever the angle and whatever
      the (linear) rotation, so a part rotates about its own joint. */
  lemma PivotRotatesAboutPoint(w: Word, p: Vec3, a: Angle, axis: Vec3, q: Vec3,
                               rot: (real, Vec3) -> Mat3, pose: Pose, v: Vec3)
    requires q == Neg(p)
    ensures Apply(w + [Translation(p), Rotation(a, axis), Translation(q)], rot, pose, v)
         == Apply(w, rot, pose, Add(p, MatVec(rot(AngleValue(a, pose), axis), Sub(v, p))))
    ensures Apply(w + [Translation(p), Rotation(a, axis), Translation(q)], rot, pose, p)
         == Apply(w, rot, pose, p)
  {
    var pivot: Word := [Translation(p), Rotation(a, axis), Translation(q)];
    var m := rot(AngleValue(a, pose), axis);
    forall u: Vec3
      ensures Apply(w + pivot, rot, pose, u) == Apply(w, rot, pose, Add(p, MatVec(m, Sub(u, p))))
    {
      ApplyAppend(w, pivot, rot, pose, u);
      assert pivot[1..][1..] == [Translation(q)];
      assert Apply(pivot[1..][1..], rot, pose, u) == Add(q, u);
      assert Apply(pivot, rot, pose, u) == Add(p, MatVec(m, Add(q, u)));
    }
    NegCancels(p);
    MatVecLinear(m, Zero, Zero);
  }

  /** Changing a joint that a frame does not mention moves no point of
      that frame. */
  lemma {:induction false} ApplyIgnoresUnmentioned(w: Word, j: Joint, value: real,
                                                   rot: (real, Vec3) -> Mat3, pose: Pose, v: Vec3)
    requires !Mentions(w, j)
    ensures Apply(w, rot, pose, v) == Apply(w, rot, WithJoint(pose, j, value), v)
    decreases |w|
  {
    if |w| > 0 {
      assert w[0] in w;
      assert !Mentions(w[1..], j) by {
        forall x | x in w[1..] ensures !RotatesBy(x, j) {
          assert x in w;
        }
      }
      ApplyIgnoresUnmentioned(w[1..], j, value, rot, pose, v);
      if w[0].Rotation? && w[0].angle.JointAngle? {
        assert w[0].angle.joint != j;
      }
    }
  }
}
