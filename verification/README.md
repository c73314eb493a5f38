# Articulated robot: a Dafny model

`Bot1-RamneekRiar.cpp` draws a small articulated robot with OpenGL's
fixed-function transform stack and lets the user turn its joints from
the keyboard. The robot has an upper assembly (body, head, cannon) and a
base assembly (lower body, two legs with shin and foot). Both sit under
one base rotation. The hip rotation turns only the upper assembly, the
left knee turns the left shin and foot about the knee, and a timer-driven
animation turns the cannon about its own pivot.

This project models that core in Dafny 4.11:

- `geometry.dfy` (`Geometry`): 3-vectors and 3x3 matrices, with exact
  real arithmetic.
- `kinematics.dfy` (`Kinematics`): joints, the pose (the four control
  angles), and transforms as words of translate/rotate/scale. `Apply`
  maps a point through a word for a given pose and rotation-matrix
  function.
- `scene.dfy` (`Scene`): the ten drawn parts and the primitives.
- `transform_stack.dfy` (`TransformStack`): the matrix stack as a
  command machine. Push copies the top, pop drops it, and popping the
  last matrix is ignored and counted as a stack-underflow error, as
  OpenGL does.
- `traces.dfy` (`Traces`): a draw routine as a nested trace of push/pop
  pairs. `Flatten` is the command stream it sends, and `Render` is its
  scene-graph reading; the two are proved to agree. `JointReach` computes
  which parts each joint turns.
- `robot.dfy` (`Robot`): every draw routine of the program, with the
  source's offsets and angles, assembled into `drawRobot`.
- `robot_frames.dfy` (`RobotFrames`): what drawing does to each part's
  frame, and the stack balance of every part routine.
- `streams.dfy` (`Streams`): the command streams of `drawCannon` and
  `drawRobot` written out in source order, one command per source line,
  with proofs that the nested traces send exactly these streams.
- `extra_pop.dfy` (`ExtraPop`): drawRobot with its push/pop pairs
  matched, and as written, with the extra `glPopMatrix` of line 260.
- `controls.dfy` (`Controls`): the `keyboard`, `functionKeys` and
  `cannonAnimationHandler` callbacks as state-to-state functions. The
  GLUT event loop becomes a sequence of events.
- `input_effects.dfy` (`InputEffects`): which drawn parts an input moves.

A `Trace` cannot express a push without its pop, so every trace is
balanced by construction. What ties the push/pop structure to the source
is `Streams`: the streams transcribed line by line from `drawCannon` and
`drawRobot` are proved equal to the traces' streams (plus, for
`drawRobot`, the one unmatched pop of line 260).

The robot-level lemmas take the part routines as a parameter `rt`.
They hold for any record in which every routine is sealed (leaves the stack as it
found it), jointless and draws only its own part (`Robot.WellShaped`). `Robot.SourceRoutines`,
the record the program draws, is proved to be such a record. So each
lemma applies to the program's `drawRobot` as the instance
`rt := SourceRoutines()`.

Three points of the code that are easy to misread:

- The left knee starts at 0 degrees (line 51). The -60 at line 54 is
  the fixed shin angle `lowerLegAngle`, which no key changes. So 'k'
  and five right arrows leave the knee at 10 (`Controls.KneeScenario`).
- `cannonAnimationHandler` checks the stop flag before it turns the
  cannon (lines 780-782). So no tick moves the cannon once `C` has been
  pressed (`Controls.StopIsPermanent`).
- The comment on line 240 says the base is not spun, but line 243
  rotates the base assembly by `robotAngle`. The model rotates it, so the
  base joint carries every part (`Robot.CarriedBy`).

## Model

| member | source | states |
|---|---|---|
| TransformStack.Step | Bot1-RamneekRiar.cpp:226-260 | One stack command. A push duplicates the top matrix. A pop removes it, except that popping the last matrix leaves the stack alone and raises exactly one underflow error. A transform multiplies only the top matrix, on the right, keeping every matrix below it. A draw records the current top and leaves the stack as it was. Only a failed pop raises an error, and only a draw records anything. |
| Traces.FlattenRealizesRender | Bot1-RamneekRiar.cpp:226-260 | Running a routine's command stream on the stack gives the draws, in order and in frames, of the scene-graph reading. The frames under the top are left as they were, and the top becomes the frame the routine leaves current. |
| Traces.SealedRestoresStack | Bot1-RamneekRiar.cpp:264-275 | A routine whose transforms all sit inside push/pop pairs leaves the stack as it found it: same depth, same matrices, no underflow. |
| Traces.FlattenPushesEqualPops | Bot1-RamneekRiar.cpp:226-259 | Any routine built from matched push/pop pairs pushes exactly as often as it pops. This holds for every trace by construction. `drawCannon`'s and `drawRobot`'s own push/pop lines are transcribed and checked against their traces through `Streams`; the other routines' nesting is that of their traces in `Robot`. |
| Traces.RenderDrawsPartsDrawn | Bot1-RamneekRiar.cpp:226-259 | The set of parts a routine actually draws is exactly the set it names, whatever frame it starts in. |
| Traces.JointReachExact | Bot1-RamneekRiar.cpp:226-259 | Starting from a frame without joint j, the reached set is exactly the set of parts some draw puts under j's rotation, and the unreached set exactly the set of parts some draw puts outside it. The frame left behind holds j exactly when `turns` is set. |
| Traces.JointReachSound | Bot1-RamneekRiar.cpp:226-259 | Pointwise, in both directions: every draw under j is of a reached part and every draw outside j of an unreached part; every reached part has a draw under j and every unreached part a draw outside j. A part drawn both ways, as in a routine called before and after a rotation, is in both sets. |
| Traces.JointlessReach | Bot1-RamneekRiar.cpp:264-275 | A routine with no joint-angle rotation puts no part under any joint and leaves no rotation behind. |
| Robot.DrawBody | Bot1-RamneekRiar.cpp:264-275 | drawBody restores the stack, turns no joint, and draws only the body. |
| Robot.DrawHead | Bot1-RamneekRiar.cpp:277-296 | drawHead restores the stack, turns no joint, and draws only the head. |
| Robot.CannonBarrel | Bot1-RamneekRiar.cpp:311-342 | The barrel and muzzle ring, including the fixed -90 degree muzzle turn, restore the stack, use no joint angle, and draw only the cannon. |
| Robot.DrawCannon | Bot1-RamneekRiar.cpp:298-344 | drawCannon restores the stack and draws only the cannon. |
| Robot.CannonReach | Bot1-RamneekRiar.cpp:306-310 | In drawCannon the cannon angle turns the cannon, no other joint does, and no rotation leaks out. |
| Robot.PivotedReach | Bot1-RamneekRiar.cpp:306-310 | A push/pop pair around translate-rotate-untranslate hands a rigid body to exactly the joint whose angle the rotation uses. |
| Robot.DrawLowerBody | Bot1-RamneekRiar.cpp:346-396 | drawLowerBody restores the stack, turns no joint, and draws only the lower body. |
| Robot.DrawLeftUpperLeg | Bot1-RamneekRiar.cpp:398-422 | drawLeftUpperLeg restores the stack. Its fixed 30 degree tilt uses no joint, and it draws only the left thigh. |
| Robot.DrawRightUpperLeg | Bot1-RamneekRiar.cpp:424-448 | drawRightUpperLeg restores the stack, uses no joint, and draws only the right thigh. |
| Robot.DrawLeftLowerLeg | Bot1-RamneekRiar.cpp:450-474 | drawLeftLowerLeg restores the stack. Its fixed -60 degree tilt uses no joint, and it draws only the left shin. |
| Robot.DrawRightLowerLeg | Bot1-RamneekRiar.cpp:476-500 | drawRightLowerLeg restores the stack, uses no joint, and draws only the right shin. |
| Robot.DrawLeftFoot | Bot1-RamneekRiar.cpp:502-615 | drawLeftFoot (ankle, foot block, three claws) restores the stack, uses no joint, and draws only the left foot. |
| Robot.DrawRightFoot | Bot1-RamneekRiar.cpp:617-730 | drawRightFoot restores the stack, uses no joint, and draws only the right foot. |
| Robot.SourceRoutines | Bot1-RamneekRiar.cpp:264-730 | Every part routine is balanced and rigid, and draws its own part only. |
| Robot.UpperAssemblyReach | Bot1-RamneekRiar.cpp:228-238 | In the upper assembly the base and hip rotations turn body, head and cannon. The cannon angle turns only the cannon, and the knee turns nothing. |
| Robot.KneeBlockReach | Bot1-RamneekRiar.cpp:247-253 | The knee pivot's block is turned by the knee, and only by the knee: the left shin and foot. |
| Robot.BaseAssemblyReach | Bot1-RamneekRiar.cpp:240-259 | In the base assembly the base rotation turns all seven parts and the knee exactly the left shin and foot. The hip and the cannon angle turn nothing. |
| Robot.DrawRobotWithReach | Bot1-RamneekRiar.cpp:226-259 | For any routines shaped like the source's, each joint turns exactly the parts it carries. Base carries all, hip the upper assembly, knee the left shin and foot, cannon joint the cannon. No rotation leaks out. |
| Robot.DrawRobot | Bot1-RamneekRiar.cpp:226-259 | The balanced drawRobot draws all ten parts and leaves no transform at its own level. |
| RobotFrames.DrawRobotJointsCarry | Bot1-RamneekRiar.cpp:226-259 | Drawn from the camera frame, a part's frame contains a joint's rotation if and only if that joint carries the part, and every part is drawn. |
| RobotFrames.TurningMovesOnlyCarried | Bot1-RamneekRiar.cpp:228-253 | Changing one joint angle moves no point of any part that joint does not carry. |
| RobotFrames.SourcePivotsFixTheirPoints | Bot1-RamneekRiar.cpp:306-310 | Every pivot in the routines translates back by exactly the negated forward offset. So its point stays fixed whatever the angle: the cannon (307-309), muzzle (322-325), knee (248-250), hips (406-408, 432-434) and shins (458-460, 484-486). |
| RobotFrames.PartRoutinesKeepStack | Bot1-RamneekRiar.cpp:264-730 | Each part routine pushes as often as it pops and leaves the stack and the error count unchanged. |
| ExtraPop.DrawRobotKeepsStack | Bot1-RamneekRiar.cpp:226-259 | drawRobot without the extra pop leaves the caller's stack and error count unchanged and pushes as often as it pops. It appends exactly the scene-graph draws. |
| Streams.BarrelStreamMatches | Bot1-RamneekRiar.cpp:311-342 | The barrel trace sends exactly the commands of lines 311-342 in order: five pushes, the barrel, the fixed -90 degree muzzle pivot, the ring, and five pops. |
| Streams.CannonStreamMatches | Bot1-RamneekRiar.cpp:306-343 | The drawCannon trace sends exactly the commands of lines 306-343 in order, so its push/pop nesting is the source's. |
| Streams.RobotStreamMatches | Bot1-RamneekRiar.cpp:228-260 | The commands of lines 228-260, in source order, are exactly the balanced drawRobot trace's stream followed by one more pop: the glPopMatrix of line 260 is the only one with no push to match. |
| ExtraPop.AsWrittenPopsOnceTooOften | Bot1-RamneekRiar.cpp:228-260 | drawRobot as transcribed from lines 228-260 pops once more than it pushes. |
| ExtraPop.ExtraPopAfterSealed | Bot1-RamneekRiar.cpp:259-260 | A balanced routine followed by one more pop meets the caller's stack. At depth 1 that is an underflow; deeper, it discards the caller's top matrix. |
| ExtraPop.AsWrittenUnderflows | Bot1-RamneekRiar.cpp:260 | Called as display calls it, with only the camera matrix on the stack, drawRobot as written raises one stack-underflow error. |
| ExtraPop.AsWrittenKeepsLastMatrix | Bot1-RamneekRiar.cpp:260 | In that call the failing pop is ignored, so the camera matrix stays on the stack. |
| ExtraPop.AsWrittenDropsCallerMatrix | Bot1-RamneekRiar.cpp:260 | Called with a deeper stack, drawRobot as written silently discards the caller's top matrix. |
| Kinematics.PivotRotatesAboutPoint | Bot1-RamneekRiar.cpp:307-309 | translate(p); rotate; translate(-p) is a rotation about p: it sends v to p + R(v - p) and keeps p fixed. |
| Kinematics.ApplyIgnoresUnmentioned | Bot1-RamneekRiar.cpp:229-232 | A frame that does not use a joint's angle maps every point the same whatever that angle is. |
| Kinematics.WithJoint | Bot1-RamneekRiar.cpp:796-821 | Setting one joint's angle gives it the new value and leaves the other three angles as they were. |
| Controls.Selected | Bot1-RamneekRiar.cpp:796-821 | The selector names a joint exactly when it is 'b', 'h' or 'k', and never names the cannon. |
| Controls.Keyboard | Bot1-RamneekRiar.cpp:753-775 | No key changes an angle. 'b', 'h' and 'k' change only the selector. 'c' arms one more cannon timer, 'C' only sets the stop flag, and any other key changes nothing. |
| Controls.FunctionKeys | Bot1-RamneekRiar.cpp:791-835 | Left and right subtract or add 2 degrees to the selected joint's angle, and to no other. Selector, stop flag and timers stay, and other special keys change nothing. |
| Controls.CannonAnimationHandler | Bot1-RamneekRiar.cpp:778-786 | A timer expiry while running turns only the cannon, by 5 degrees, and re-arms its timer. Once stopped it moves nothing and its chain ends. |
| Controls.ArrowsUndoEachOther | Bot1-RamneekRiar.cpp:795-821 | Right then left, or left then right, restores the whole state. |
| Controls.RightPresses | Bot1-RamneekRiar.cpp:809-821 | n right-arrow presses turn the selected joint by 2n degrees and change nothing else. |
| Controls.KneeScenario | Bot1-RamneekRiar.cpp:46-55 | From the start, 'k' and five right arrows give pose (0, 0, 10, 10): only the knee moves, to 10. |
| Controls.SelectorStaysValid | Bot1-RamneekRiar.cpp:753-772 | The selector stays one of 'b', 'h', 'k' under every input sequence, so an arrow always has a joint to turn. |
| Controls.StopIsPermanent | Bot1-RamneekRiar.cpp:766-786 | Once 'C' is pressed the stop flag stays set and the cannon never moves again, whatever inputs and ticks follow. |
| Controls.StepKeepsChainsArmed | Bot1-RamneekRiar.cpp:766-784 | Until stopped, no input or tick reduces the number of armed timer chains, and 'c' adds exactly one. |
| Controls.TimerRounds | Bot1-RamneekRiar.cpp:778-786 | While running, n expiries turn the cannon by 5n degrees and change nothing else. |
| Controls.OneRoundPerChain | Bot1-RamneekRiar.cpp:766-786 | With k chains armed, one round in which each fires once turns the cannon 5k degrees and keeps k chains. Each 'c' multiplies the speed. |
| Controls.TwoChainsScenario | Bot1-RamneekRiar.cpp:766-786 | Two presses of 'c' arm two chains, and after both fire once the cannon is at 20 degrees. |
| Controls.StoppedChainsDrain | Bot1-RamneekRiar.cpp:778-786 | After 'C', each expiry ends one chain and the cannon does not move. |
| Controls.CannonMovesInWholeSteps | Bot1-RamneekRiar.cpp:778-823 | After any inputs from the start, the cannon is at 10 plus a whole number of 5-degree steps, and the other angles are whole multiples of 2. |
| InputEffects.ArrowMovesOnlyCarried | Bot1-RamneekRiar.cpp:791-835 | An arrow key moves no point of a part the selected joint does not carry. With the hip selected the whole base assembly stays put; with the knee, everything but the left shin and foot. |
| InputEffects.ArrowReachesCarried | Bot1-RamneekRiar.cpp:791-835 | Every part the selected joint carries is drawn under that joint's rotation. |
| InputEffects.TimerMovesOnlyCannon | Bot1-RamneekRiar.cpp:778-786 | A cannon tick moves no point of any part but the cannon. |

## Left out

- Window creation, `main` and `initOpenGL` (lines 125-196) and the lighting and material tables (lines 59-84) are left out. They do not change the transform stack or the control state.
- `reshape` (lines 733-748) and the camera set-up in `display` (lines 203-208) are left out: the projection is not modelled. The camera view is any frame that uses no joint angle (`InputEffects.Unjointed`).
- The ground mesh drawn by `display` (lines 218-221) is left out. `QuadMesh` and `VECTOR3D` are not part of this model.
- `mouse` and `mouseMotionHandler` (lines 839-875) are left out: they change no state the robot depends on.
- The sine and cosine inside `glRotatef` are not computed. A rotation is an arbitrary function from angle and axis to a matrix, and every frame property holds for any such function.
- Primitive tessellation (slices, stacks, quadric draw styles) is left out, and so are the quadric objects the routines allocate and never free.
- `glutPostRedisplay` is not modelled: a redraw request changes no state.
- The 10 ms timer period is not modelled: the loop is a sequence of events, and a timer expiry is an event.
- Single-precision floats are not modelled: angles are exact reals. This agrees with `float` as long as the angles stay whole numbers below 2^24.
- OpenGL also keeps offsets, scale factors and matrix products in single precision, while the model's `Geometry` is exact real arithmetic. So `Kinematics.PivotRotatesAboutPoint` and `RobotFrames.SourcePivotsFixTheirPoints` hold exactly only in the real-valued model: on the GPU a pivot point moves by rounding error.
- The matrix stack has no depth limit in the model, so `GL_STACK_OVERFLOW` is not modelled. OpenGL guarantees a modelview stack of at least 32 matrices, and the program's deepest nesting is 9: the camera matrix from `display`, 2 in `drawRobot` and 6 in `drawCannon`. So the limit is never reached.
- The push and pop counts of `drawCannon`'s transcribed stream (six each) are not stated as numbers: they follow from `Streams.CannonStreamMatches` and `Traces.FlattenPushesEqualPops` as equal counts only.
- Only `drawCannon` and `drawRobot` are transcribed as command streams (`Streams`). The other part routines, `drawBody` to `drawRightFoot` (lines 264-296 and 346-730), are modelled by their traces in `Robot` alone: their push/pop nesting is that of those traces and is not checked against a line-by-line stream.
- The fixed leg angles `upperLegAngle` and `lowerLegAngle` are constants: no input in the source changes them.
- Controls.CannonAnimationHandler: requires an armed timer. GLUT calls the handler only when one of its timers runs out. `Controls.Step` therefore ignores a tick when no timer is armed.

## Findings

| source | as written | input that shows it | evidently intended | confidence | as-written member | corrected member |
|---|---|---|---|---|---|---|
| Bot1-RamneekRiar.cpp:260 | drawRobot ends with a second `glPopMatrix`, one more than its pushes | `display` calls drawRobot with only the camera matrix on the stack. The extra pop then raises `GL_STACK_UNDERFLOW`; with a deeper stack it would discard the caller's matrix | every push matched by one pop, leaving the caller's stack as it was | high, not executed | ExtraPop.AsWrittenUnderflows | ExtraPop.DrawRobotKeepsStack |
