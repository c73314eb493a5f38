/** What the renderer is asked to draw: which body part a primitive belongs
    to, and the primitive with its size parameters. Material and lighting
    are not modelled; the part label stands for them. */
module Scene {

  datatype Part =
    | Body | Head | Cannon | LowerBody
    | LeftUpperLeg | RightUpperLeg | LeftLowerLeg | RightLowerLeg
    | LeftFoot | RightFoot

  /** `Cube` is a unit cube (sized by the current scale); `Cylinder` and
      `Disk` carry the radii and height passed to the quadric calls. */
  datatype Prim =
    | Cube
    | Cylinder(baseRadius: real, topRadius: real, height: real)
    | Disk(inner: real, outer: real)

  /** The assembly above the hip, which turns with `hipAngle`. */
  const UpperAssemblyParts: set<Part> := {Body, Head, Cannon}

  /** The fixed base: lower body, legs and feet. */
  const BaseAssemblyParts: set<Part> :=
    {LowerBody, LeftUpperLeg, RightUpperLeg, LeftLowerLeg, RightLowerLeg, LeftFoot, RightFoot}

  /** Every part of the robot. */
  const AllParts: set<Part> := UpperAssemblyParts + BaseAssemblyParts

  /** The parts below the left knee. */
  const BelowLeftKnee: set<Part> := {LeftLowerLeg, LeftFoot}
}
