/** The end of drawRobot (lines 259-260): its push/pop pairs balance, but
    the routine then pops once more. With the pairs matched the caller's
    stack comes back untouched; as written, the extra pop underflows the
    stack display calls it with, or discards a deeper caller's matrix. */
module ExtraPop {
  import opened TransformStack
  import opened Traces
  import opened Robot
  import opened Streams

  /** Lines 226-259 with the push/pop pairs matched: the robot leaves the
      transform stack exactly as it found it, raises no stack error, and
      draws what the scene-graph reading says. */
  lemma DrawRobotKeepsStack(rt: Routines, m: Machine)
    requires WellShaped(rt) && Valid(m)
    ensures Exec(Flatten(DrawRobotWith(rt)), m).stack == m.stack
    ensures Exec(Flatten(DrawRobotWith(rt)), m).underflows == m.underflows
    ensures Exec(Flatten(DrawRobotWith(rt)), m).draws == m.draws + Render(DrawRobotWith(rt), Top(m)).draws
    ensures Pushes(Flatten(DrawRobotWith(rt))) == Pops(Flatten(DrawRobotWith(rt)))
  {
    SealedRestoresStack(DrawRobotWith(rt), m);
    FlattenPushesEqualPops(DrawRobotWith(rt));
  }

  /** As written, drawRobot pops once more than it pushes. */
  lemma AsWrittenPopsOnceTooOften(rt: Routines)
    requires WellShaped(rt)
    ensures Pops(RobotStream(rt)) == Pushes(RobotStream(rt)) + 1
  {
    var ops := Flatten(DrawRobotWith(rt));
    RobotStreamMatches(rt);
    FlattenPushesEqualPops(DrawRobotWith(rt));
    assert multiset(ops + [Pop]) == multiset(ops) + multiset{Pop};
  }

  /** A sealed trace followed by one more pop: the pop meets the stack the
      trace started from. */
  lemma ExtraPopAfterSealed(t: Trace, m: Machine)
    requires Valid(m) && Sealed(t)
    ensures |m.stack| == 1 ==> Exec(Flatten(t) + [Pop], m).stack == m.stack
    ensures |m.stack| == 1 ==> Exec(Flatten(t) + [Pop], m).underflows == m.underflows + 1
    ensures |m.stack| > 1 ==> Exec(Flatten(t) + [Pop], m).stack == Below(m)
    ensures |m.stack| > 1 ==> Exec(Flatten(t) + [Pop], m).underflows == m.underflows
  {
    ExecSnoc(Flatten(t), Pop, m);
    SealedRestoresStack(t, m);
  }

  /** Called as display calls it, with only the camera matrix on the
      stack, the extra pop finds one matrix left and raises a stack
      underflow error. */
  lemma AsWrittenUnderflows(rt: Routines, m: Machine)
    requires WellShaped(rt) && |m.stack| == 1
    ensures Exec(RobotStream(rt), m).underflows == m.underflows + 1
  {
    RobotStreamMatches(rt);
    ExtraPopAfterSealed(DrawRobotWith(rt), m);
  }

  /** That failed pop is ignored: the camera matrix is still there. */
  lemma AsWrittenKeepsLastMatrix(rt: Routines, m: Machine)
    requires WellShaped(rt) && |m.stack| == 1
    ensures Exec(RobotStream(rt), m).stack == m.stack
  {
    RobotStreamMatches(rt);
    ExtraPopAfterSealed(DrawRobotWith(rt), m);
  }

  /** With a deeper stack the extra pop would instead discard the caller's
      matrix, silently. */
  lemma AsWrittenDropsCallerMatrix(rt: Routines, m: Machine)
    requires WellShaped(rt) && |m.stack| > 1
    ensures Exec(RobotStream(rt), m).stack == Below(m)
    ensures Exec(RobotStream(rt), m).underflows == m.underflows
  {
    RobotStreamMatches(rt);
    ExtraPopAfterSealed(DrawRobotWith(rt), m);
  }
}
