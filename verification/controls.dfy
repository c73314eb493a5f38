/** The input side of the program: the joint selector, the four control
    angles, the cannon animation's stop flag and the timers it has armed,
    and the three callbacks that change them (keyboard, functionKeys,
    cannonAnimationHandler). Each callback is a function from state to
    state; the GLUT event loop is a sequence of events. */
module Controls {
  import opened Kinematics

  /** The arrow keys the program reacts to, and every other special key.
      `OtherSpecial` stands for the keys that are not arrows: its `code`
      is never GLUT's code for the left or right arrow. */
  datatype SpecialKey = LeftArrow | RightArrow | OtherSpecial(code: int)

  datatype Event =
    | Key(key: char)          // keyboard: an ordinary key
    | Special(sk: SpecialKey) // functionKeys: an arrow or function key
    | TimerFires              // one armed cannon timer runs out

  /** The program's mutable globals: `curJoint`, the control angles, the
      stop flag, and how many cannon-timer chains are armed. */
  datatype State = State(curJoint: char, pose: Pose, stop: bool, armed: nat)

  /** Lines 46-55 and 750: joint 'b' selected, robot, hip and knee angles
      0, cannon angle 10, not stopped, no timer. */
  const Initial: State := State('b', Pose(0.0, 0.0, 0.0, 10.0), false, 0)

  const ArrowStep: real := 2.0
  const CannonStep: real := 5.0

  datatype Option<T> = None | Some(value: T)

  /** The joint the arrow keys turn when `c` is the selector: 'b' the base,
      'h' the hip, 'k' the knee, anything else none. */
  function Selected(c: char): (r: Option<Joint>)
    ensures r.Some? <==> c in {'b', 'h', 'k'}
    ensures r.Some? ==> r.value != CannonJoint
  {
    if c == 'b' then Some(Base)
    else if c == 'h' then Some(Hip)
    else if c == 'k' then Some(Knee)
    else None
  }

  /** Lines 753-775. 'b', 'h', 'k' select a joint, 'c' arms one more
      cannon timer, 'C' sets the stop flag; every other key changes
      nothing. */
  function Keyboard(s: State, key: char): (r: State)
    ensures r.pose == s.pose
    ensures key in {'b', 'h', 'k'} ==> r == s.(curJoint := key)
    ensures key == 'c' ==> r == s.(armed := s.armed + 1)
    ensures key == 'C' ==> r == s.(stop := true)
    ensures key !in {'b', 'h', 'k', 'c', 'C'} ==> r == s
  {
    match key
    case 'b' => s.(curJoint := 'b')
    case 'h' => s.(curJoint := 'h')
    case 'k' => s.(curJoint := 'k')
    case 'c' => s.(armed := s.armed + 1)
    case 'C' => s.(stop := true)
    case _ => s
  }

  /** Lines 791-835 for one arrow: `delta` is -2 for the left arrow and +2
      for the right one. */
  function Nudge(s: State, delta: real): State {
    var p := s.pose;
    if s.curJoint == 'b' then s.(pose := p.(robotAngle := p.robotAngle + delta))
    else if s.curJoint == 'h' then s.(pose := p.(hipAngle := p.hipAngle + delta))
    else if s.curJoint == 'k' then s.(pose := p.(leftKneeAngle := p.leftKneeAngle + delta))
    else s
  }

  /** Lines 791-835. An arrow key adds or subtracts 2 degrees on the joint
      the selector names, and only on that joint; other special keys
      change nothing. */
  function FunctionKeys(s: State, sk: SpecialKey): (r: State)
    ensures r.curJoint == s.curJoint && r.stop == s.stop && r.armed == s.armed
    ensures sk.OtherSpecial? ==> r == s
    ensures !sk.OtherSpecial? ==>
              r.pose == match Selected(s.curJoint)
                        case None => s.pose
                        case Some(j) =>
                          WithJoint(s.pose, j,
                                    JointValue(s.pose, j) + (if sk.LeftArrow? then -ArrowStep else ArrowStep))
  {
    match sk
    case LeftArrow => Nudge(s, -ArrowStep)
    case RightArrow => Nudge(s, ArrowStep)
    case OtherSpecial(_) => s
  }

  /** Lines 778-786, run when one armed timer expires: unless stopped, the
      cannon turns 5 degrees and the timer is armed again; once stopped,
      the chain ends and the cannon stays where it is. */
  function CannonAnimationHandler(s: State): (r: State)
    requires s.armed > 0
    ensures r.curJoint == s.curJoint && r.stop == s.stop
    ensures !s.stop ==> r.pose == WithJoint(s.pose, CannonJoint, s.pose.cannonAngle + CannonStep)
    ensures !s.stop ==> r.armed == s.armed
    ensures s.stop ==> r.pose == s.pose && r.armed == s.armed - 1
  {
    var fired := s.(armed := s.armed - 1);
    if !fired.stop then
      fired.(pose := fired.pose.(cannonAngle := fired.pose.cannonAngle + CannonStep),
             armed := fired.armed + 1)
    else fired
  }

  /** One event of the loop. A timer can only fire while one is armed. */
  function Step(s: State, e: Event): State {
    match e
    case Key(k) => Keyboard(s, k)
    case Special(sk) => FunctionKeys(s, sk)
    case TimerFires => if s.armed > 0 then CannonAnimationHandler(s) else s
  }

  function Run(s: State, events: seq<Event>): State
    decreases |events|
  {
    if |events| == 0 then s else Run(Step(s, events[0]), events[1..])
  }

  lemma {:induction false} RunAppend(s: State, a: seq<Event>, b: seq<Event>)
    ensures Run(s, a + b) == Run(Run(s, a), b)
    decreases |a|
  {
    if |a| == 0 {
      assert a + b == b;
    } else {
      assert (a + b)[0] == a[0];
      assert (a + b)[1..] == a[1..] + b;
      RunAppend(Step(s, a[0]), a[1..], b);
    }
  }

  function Repeat(e: Event, n: nat): (r: seq<Event>)
    ensures |r| == n
    ensures forall i | 0 <= i < n :: r[i] == e
  {
    if n == 0 then [] else [e] + Repeat(e, n - 1)
  }

  /** The left arrow undoes the right arrow and the right arrow undoes
      the left one, whichever joint is selected. */
  lemma ArrowsUndoEachOther(s: State)
    ensures FunctionKeys(FunctionKeys(s, RightArrow), LeftArrow) == s
    ensures FunctionKeys(FunctionKeys(s, LeftArrow), RightArrow) == s
  {
  }

  /** `n` presses of the right arrow turn the selected joint by 2n degrees
      and leave everything else as it was. */
  lemma {:induction false} RightPresses(s: State, n: nat)
    requires Selected(s.curJoint).Some?
    ensures Run(s, Repeat(Special(RightArrow), n))
         == s.(pose := WithJoint(s.pose, Selected(s.curJoint).value,
                                 JointValue(s.pose, Selected(s.curJoint).value) + ArrowStep * n as real))
    decreases n
  {
    var j := Selected(s.curJoint).value;
    if n == 0 {
      assert WithJoint(s.pose, j, JointValue(s.pose, j)) == s.pose;
    } else {
      var es := Repeat(Special(RightArrow), n);
      assert es[1..] == Repeat(Special(RightArrow), n - 1);
      var s1 := FunctionKeys(s, RightArrow);
      RightPresses(s1, n - 1);
      assert s1 == s.(pose := WithJoint(s.pose, j, JointValue(s.pose, j) + ArrowStep));
    }
  }

  /** Selecting the knee and pressing the right arrow five times, from
      the start, leaves the knee at 10 degrees and the other angles at
      their starting values. */
  lemma KneeScenario()
    ensures Run(Initial, [Key('k')] + Repeat(Special(RightArrow), 5)).pose == Pose(0.0, 0.0, 10.0, 10.0)
  {
    var s := Keyboard(Initial, 'k');
    assert ([Key('k')] + Repeat(Special(RightArrow), 5))[1..] == Repeat(Special(RightArrow), 5);
    RightPresses(s, 5);
  }

  /** The selector only ever holds 'b', 'h' or 'k'. */
  predicate SelectorValid(s: State) {
    s.curJoint in {'b', 'h', 'k'}
  }

  lemma {:induction false} SelectorStaysValid(s: State, events: seq<Event>)
    requires SelectorValid(s)
    ensures SelectorValid(Run(s, events))
    ensures Selected(Run(s, events).curJoint).Some?
    decreases |events|
  {
    if |events| > 0 {
      SelectorStaysValid(Step(s, events[0]), events[1..]);
    }
  }

  /** The stop flag, once set, stays set: no key clears it. */
  lemma {:induction false} StopIsPermanent(s: State, events: seq<Event>)
    requires s.stop
    ensures Run(s, events).stop
    ensures Run(s, events).pose.cannonAngle == s.pose.cannonAngle
    decreases |events|
  {
    if |events| > 0 {
      StopIsPermanent(Step(s, events[0]), events[1..]);
    }
  }

  /** Until stopped, no event disarms a timer chain: each expiry re-arms
      itself, and 'c' adds one. */
  lemma StepKeepsChainsArmed(s: State, e: Event)
    requires !Step(s, e).stop
    ensures Step(s, e).armed >= s.armed
    ensures e == Key('c') ==> Step(s, e).armed == s.armed + 1
  {
  }

  /** While running, `n` expiries turn the cannon by 5n degrees: every
      armed chain adds its own 5 degrees each time it fires, so pressing
      'c' k times makes the cannon turn k times as fast. */
  lemma {:induction false} TimerRounds(s: State, n: nat)
    requires !s.stop && s.armed > 0
    ensures Run(s, Repeat(TimerFires, n))
         == s.(pose := WithJoint(s.pose, CannonJoint, s.pose.cannonAngle + CannonStep * n as real))
    decreases n
  {
    if n == 0 {
      assert WithJoint(s.pose, CannonJoint, s.pose.cannonAngle) == s.pose;
    } else {
      var es := Repeat(TimerFires, n);
      assert es[1..] == Repeat(TimerFires, n - 1);
      TimerRounds(Step(s, TimerFires), n - 1);
    }
  }

  /** One round in which every armed chain fires once turns the cannon by
      5 degrees per chain. */
  lemma OneRoundPerChain(s: State)
    requires !s.stop && s.armed > 0
    ensures Run(s, Repeat(TimerFires, s.armed)).pose.cannonAngle
         == s.pose.cannonAngle + CannonStep * s.armed as real
    ensures Run(s, Repeat(TimerFires, s.armed)).armed == s.armed
  {
    TimerRounds(s, s.armed);
  }

  /** Pressing 'c' twice arms two chains; when each has fired once the
      cannon has turned 10 degrees, from 10 to 20. */
  lemma TwoChainsScenario()
    ensures Run(Initial, [Key('c'), Key('c')]).armed == 2
    ensures Run(Initial, [Key('c'), Key('c')] + Repeat(TimerFires, 2)).pose.cannonAngle == 20.0
  {
    var s := Run(Initial, [Key('c'), Key('c')]);
    assert [Key('c'), Key('c')][1..] == [Key('c')];
    assert s == Initial.(armed := 2);
    RunAppend(Initial, [Key('c'), Key('c')], Repeat(TimerFires, 2));
    TimerRounds(s, 2);
  }

  /** After 'C', each expiry ends its chain: `n` expiries disarm
      min(n, armed) chains and the cannon does not move. */
  lemma {:induction false} StoppedChainsDrain(s: State, n: nat)
    requires s.stop
    ensures Run(s, Repeat(TimerFires, n))
         == s.(armed := if n <= s.armed then s.armed - n else 0)
    decreases n
  {
    if n > 0 {
      var es := Repeat(TimerFires, n);
      assert es[1..] == Repeat(TimerFires, n - 1);
      StoppedChainsDrain(Step(s, TimerFires), n - 1);
    }
  }

  /** `k` steps of `step` degrees. */
  function Turns(step: real, k: int): real {
    step * k as real
  }

  /** The cannon angle is 10 plus a whole number of 5-degree steps, and
      the other angles whole numbers of 2-degree steps. */
  ghost predicate WholeSteps(p: Pose) {
    (exists k: int :: p.robotAngle == Turns(ArrowStep, k)) &&
    (exists k: int :: p.hipAngle == Turns(ArrowStep, k)) &&
    (exists k: int :: p.leftKneeAngle == Turns(ArrowStep, k)) &&
    (exists k: nat :: p.cannonAngle == 10.0 + Turns(CannonStep, k))
  }

  lemma StepKeepsWholeSteps(s: State, e: Event)
    requires WholeSteps(s.pose)
    ensures WholeSteps(Step(s, e).pose)
  {
    var p := s.pose;
    var r := Step(s, e).pose;
    var a: int :| p.robotAngle == Turns(ArrowStep, a);
    var h: int :| p.hipAngle == Turns(ArrowStep, h);
    var k: int :| p.leftKneeAngle == Turns(ArrowStep, k);
    var c: nat :| p.cannonAngle == 10.0 + Turns(CannonStep, c);
    match e
    case Key(_) =>
    case Special(sk) =>
      if !sk.OtherSpecial? {
        var d: int := if sk.LeftArrow? then -1 else 1;
        assert r.robotAngle == Turns(ArrowStep, a) || r.robotAngle == Turns(ArrowStep, a + d);
        assert r.hipAngle == Turns(ArrowStep, h) || r.hipAngle == Turns(ArrowStep, h + d);
        assert r.leftKneeAngle == Turns(ArrowStep, k) || r.leftKneeAngle == Turns(ArrowStep, k + d);
        assert r.cannonAngle == 10.0 + Turns(CannonStep, c);
      }
    case TimerFires =>
      assert r.cannonAngle == 10.0 + Turns(CannonStep, c) || r.cannonAngle == 10.0 + Turns(CannonStep, c + 1);
      assert r.robotAngle == Turns(ArrowStep, a) && r.hipAngle == Turns(ArrowStep, h);
      assert r.leftKneeAngle == Turns(ArrowStep, k);
  }

  lemma {:induction false} CannonMovesInWholeSteps(events: seq<Event>)
    ensures WholeSteps(Run(Initial, events).pose)
  {
    assert Initial.pose.cannonAngle == 10.0 + Turns(CannonStep, 0);
    assert Initial.pose.robotAngle == Turns(ArrowStep, 0);
    RunKeepsWholeSteps(Initial, events);
  }

  lemma {:induction false} RunKeepsWholeSteps(s: State, events: seq<Event>)
    requires WholeSteps(s.pose)
    ensures WholeSteps(Run(s, events).pose)
    decreases |events|
  {
    if |events| > 0 {
      StepKeepsWholeSteps(s, events[0]);
      RunKeepsWholeSteps(Step(s, events[0]), events[1..]);
    }
  }
}
