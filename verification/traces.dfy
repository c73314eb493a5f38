/** A draw routine as the nested structure its push/pop pairs give it: a
    `Matrix(body, next)` is a glPushMatrix, the commands of `body`, the
    matching glPopMatrix, then `next`; a `Call` runs another routine inline
    on the same stack. `Flatten` gives the command stream the routine sends
    to the transform stack, and `Render` the recursive scene-graph reading
    of the same routine; `FlattenRealizesRender` proves they agree. */
module Traces {
  import opened Kinematics
  import opened Scene
  import opened TransformStack

  datatype Trace =
    | End
    | Transform(x: Xform, next: Trace)
    | Solid(part: Part, prim: Prim, next: Trace)
    | Matrix(body: Trace, next: Trace)
    | Call(routine: Trace, next: Trace)

  function Flatten(t: Trace): seq<Op> {
    match t
    case End => []
    case Transform(x, next) => [Mult(x)] + Flatten(next)
    case Solid(part, prim, next) => [Draw(part, prim)] + Flatten(next)
    case Matrix(body, next) => [Push] + Flatten(body) + [Pop] + Flatten(next)
    case Call(routine, next) => Flatten(routine) + Flatten(next)
  }

  /** The draws a trace makes, in order, and the frame it leaves current. */
  datatype Rendered = Rendered(draws: seq<DrawEvent>, frame: Word)

  /** Scene-graph reading: a `Matrix` body draws under a copy of the current
      frame and cannot change the frame its siblings see. */
  function Render(t: Trace, f: Word): Rendered {
    match t
    case End => Rendered([], f)
    case Transform(x, next) => Render(next, f + [x])
    case Solid(part, prim, next) =>
      var r := Render(next, f);
      Rendered([DrawEvent(part, prim, f)] + r.draws, r.frame)
    case Matrix(body, next) =>
      var b := Render(body, f);
      var r := Render(next, f);
      Rendered(b.draws + r.draws, r.frame)
    case Call(routine, next) =>
      var a := Render(routine, f);
      var r := Render(next, a.frame);
      Rendered(a.draws + r.draws, r.frame)
  }

  /** No transform at the routine's own level: every translate, rotate and
      scale sits inside a push/pop pair (or a routine that is sealed). */
  predicate Sealed(t: Trace) {
    match t
    case End => true
    case Transform(_, _) => false
    case Solid(_, _, next) => Sealed(next)
    case Matrix(_, next) => Sealed(next)
    case Call(routine, next) => Sealed(routine) && Sealed(next)
  }

  function PartsDrawn(t: Trace): set<Part> {
    match t
    case End => {}
    case Transform(_, next) => PartsDrawn(next)
    case Solid(part, _, next) => {part} + PartsDrawn(next)
    case Matrix(body, next) => PartsDrawn(body) + PartsDrawn(next)
    case Call(routine, next) => PartsDrawn(routine) + PartsDrawn(next)
  }

  /** Which parts a trace draws under a rotation by joint `j` that the trace
      itself applies (`reached`), which it draws without one (`unreached`),
      and whether it leaves such a rotation in the current frame (`turns`). */
  datatype Reach = Reach(reached: set<Part>, unreached: set<Part>, turns: bool)

  function JointReach(t: Trace, j: Joint): (r: Reach)
    ensures r.reached + r.unreached == PartsDrawn(t)
    ensures Sealed(t) ==> !r.turns
  {
    match t
    case End => Reach({}, {}, false)
    case Transform(x, next) =>
      var r := JointReach(next, j);
      if RotatesBy(x, j) then Reach(r.reached + r.unreached, {}, true) else r
    case Solid(part, _, next) =>
      var r := JointReach(next, j);
      Reach(r.reached, {part} + r.unreached, r.turns)
    case Matrix(body, next) =>
      var b := JointReach(body, j);
      var r := JointReach(next, j);
      Reach(b.reached + r.reached, b.unreached + r.unreached, r.turns)
    case Call(routine, next) =>
      var a := JointReach(routine, j);
      var r := JointReach(next, j);
      if a.turns then Reach(a.reached + r.reached + r.unreached, a.unreached, true)
      else Reach(a.reached + r.reached, a.unreached + r.unreached, r.turns)
  }

  /** No rotation by a joint angle anywhere in the trace: what it draws
      stays put whatever the pose. */
  predicate Jointless(t: Trace) {
    match t
    case End => true
    case Transform(x, next) => !Turning(x) && Jointless(next)
    case Solid(_, _, next) => Jointless(next)
    case Matrix(body, next) => Jointless(body) && Jointless(next)
    case Call(routine, next) => Jointless(routine) && Jointless(next)
  }

  /** Sealed, drawing exactly `parts`, and none of them under a joint. */
  predicate Rigid(t: Trace, parts: set<Part>) {
    Sealed(t) && Jointless(t) && PartsDrawn(t) == parts
  }

  /** A jointless trace draws nothing under a joint of its own and leaves
      no joint rotation behind, for every joint. */
  lemma {:induction false} JointlessReach(t: Trace, j: Joint)
    requires Jointless(t)
    ensures JointReach(t, j) == Reach({}, PartsDrawn(t), false)
  {
    match t
    case End =>
    case Transform(x, next) => JointlessReach(next, j);
    case Solid(_, _, next) => JointlessReach(next, j);
    case Matrix(body, next) =>
      JointlessReach(body, j);
      JointlessReach(next, j);
    case Call(routine, next) =>
      JointlessReach(routine, j);
      JointlessReach(next, j);
  }

  /* The idioms the draw routines are written in. Each is one constructor
     and adds no behaviour of its own: the functions exist so that their
     contracts unfold `Sealed`, `PartsDrawn` and `Jointless` one level,
     which lets a routine's summaries follow compositionally from those of
     its pieces however deeply they nest. */

  /** A single primitive (glutSolidCube, gluCylinder, gluDisk). */
  function Shape(part: Part, prim: Prim): (r: Trace)
    ensures Rigid(r, {part})
  {
    Solid(part, prim, End)
  }

  /** A transform (glTranslatef, glRotatef, glScalef) followed by `body`. */
  function Under(x: Xform, body: Trace): (r: Trace)
    ensures !Sealed(r) && PartsDrawn(r) == PartsDrawn(body)
    ensures Jointless(r) == (!Turning(x) && Jointless(body))
  {
    Transform(x, body)
  }

  /** glPushMatrix, `body`, glPopMatrix. */
  function Scope(body: Trace): (r: Trace)
    ensures Sealed(r) && PartsDrawn(r) == PartsDrawn(body)
    ensures Jointless(r) == Jointless(body)
  {
    Matrix(body, End)
  }

  /** Routine `a` and then `b` on the same stack. */
  function Then(a: Trace, b: Trace): (r: Trace)
    ensures Sealed(r) == (Sealed(a) && Sealed(b))
    ensures PartsDrawn(r) == PartsDrawn(a) + PartsDrawn(b)
    ensures Jointless(r) == (Jointless(a) && Jointless(b))
  {
    Call(a, b)
  }

  /** A push/pop pair draws what its body draws, under the same joints,
      and forgets whatever rotation the body left behind. */
  lemma ScopeReach(body: Trace, j: Joint)
    ensures JointReach(Scope(body), j)
         == Reach(JointReach(body, j).reached, JointReach(body, j).unreached, false)
  {
  }

  /** Everything drawn after a rotation by `j` is reached by `j`. */
  lemma UnderReach(x: Xform, body: Trace, j: Joint)
    ensures JointReach(Under(x, body), j)
         == if RotatesBy(x, j) then Reach(PartsDrawn(body), {}, true) else JointReach(body, j)
  {
  }

  /** After a routine that leaves no rotation by `j` behind, the next one
      is reached by `j` only through its own rotations. */
  lemma ThenReach(a: Trace, b: Trace, j: Joint)
    requires !JointReach(a, j).turns
    ensures JointReach(Then(a, b), j)
         == Reach(JointReach(a, j).reached + JointReach(b, j).reached,
                  JointReach(a, j).unreached + JointReach(b, j).unreached,
                  JointReach(b, j).turns)
  {
  }

  /** Executing the flattened command stream on the transform stack produces
      exactly the draws of the scene-graph reading, leaves everything below
      the top untouched, replaces the top by the trace's final frame, and
      never underflows. */
  lemma {:induction false} FlattenRealizesRender(t: Trace, m: Machine)
    requires Valid(m)
    ensures Exec(Flatten(t), m)
         == Machine(Below(m) + [Render(t, Top(m)).frame],
                    m.draws + Render(t, Top(m)).draws,
                    m.underflows)
    decreases t, 1
  {
    var f := Top(m);
    match t
    case End =>
      assert Below(m) + [f] == m.stack;
      assert m.draws + [] == m.draws;
    case Transform(x, next) =>
      ExecCons(Mult(x), Flatten(next), m);
      FlattenRealizesRender(next, Step(Mult(x), m));
    case Solid(part, prim, next) =>
      SolidRealizesRender(part, prim, next, m);
    case Matrix(body, next) =>
      MatrixRealizesRender(body, next, m);
    case Call(routine, next) =>
      CallRealizesRender(routine, next, m);
  }

  /** The `Solid` case: the draw records the current frame. */
  lemma {:induction false} SolidRealizesRender(part: Part, prim: Prim, next: Trace, m: Machine)
    requires Valid(m)
    ensures Exec(Flatten(Solid(part, prim, next)), m)
         == Machine(Below(m) + [Render(Solid(part, prim, next), Top(m)).frame],
                    m.draws + Render(Solid(part, prim, next), Top(m)).draws,
                    m.underflows)
    decreases Solid(part, prim, next), 0
  {
    var f := Top(m);
    var d := DrawEvent(part, prim, f);
    var m1 := Machine(m.stack, m.draws + [d], m.underflows);
    var r := Render(next, f);
    DrawFirst(part, prim, Flatten(next), m);
    assert Flatten(Solid(part, prim, next)) == [Draw(part, prim)] + Flatten(next);
    FlattenRealizesRender(next, m1);
    assert m1.draws + r.draws == m.draws + ([d] + r.draws);
  }

  /** A draw command first: the rest runs with the draw recorded. */
  lemma DrawFirst(part: Part, prim: Prim, ops: seq<Op>, m: Machine)
    requires Valid(m)
    ensures Exec([Draw(part, prim)] + ops, m)
         == Exec(ops, Machine(m.stack, m.draws + [DrawEvent(part, prim, Top(m))], m.underflows))
  {
    ExecCons(Draw(part, prim), ops, m);
  }

  /** The `Call` case: the callee runs on the same stack, and the rest
      starts from the frame it leaves. */
  lemma {:induction false} CallRealizesRender(routine: Trace, next: Trace, m: Machine)
    requires Valid(m)
    ensures Exec(Flatten(Call(routine, next)), m)
         == Machine(Below(m) + [Render(Call(routine, next), Top(m)).frame],
                    m.draws + Render(Call(routine, next), Top(m)).draws,
                    m.underflows)
    decreases Call(routine, next), 0
  {
    var f := Top(m);
    var a := Render(routine, f);
    var m1 := Machine(Below(m) + [a.frame], m.draws + a.draws, m.underflows);
    var r := Render(next, a.frame);
    assert Exec(Flatten(Call(routine, next)), m) == Exec(Flatten(next), m1) by {
      ExecAppend(Flatten(routine), Flatten(next), m);
      FlattenRealizesRender(routine, m);
    }
    assert Exec(Flatten(next), m1) == Machine(Below(m) + [r.frame], m1.draws + r.draws, m.underflows) by {
      FlattenRealizesRender(next, m1);
      assert Top(m1) == a.frame && Below(m1) == Below(m);
    }
    assert Render(Call(routine, next), f) == Rendered(a.draws + r.draws, r.frame);
    assert m1.draws + r.draws == m.draws + (a.draws + r.draws);
  }

  /** The `Matrix` case: the body runs one matrix up and the pop discards
      whatever it did to the frame. */
  lemma {:induction false} MatrixRealizesRender(body: Trace, next: Trace, m: Machine)
    requires Valid(m)
    ensures Exec(Flatten(Matrix(body, next)), m)
         == Machine(Below(m) + [Render(Matrix(body, next), Top(m)).frame],
                    m.draws + Render(Matrix(body, next), Top(m)).draws,
                    m.underflows)
    decreases Matrix(body, next), 0
  {
    var f := Top(m);
    var fb := Flatten(body);
    var b := Render(body, f);
    var r := Render(next, f);
    var m3 := Machine(m.stack, m.draws + b.draws, m.underflows);
    assert Exec([Push] + fb + [Pop], m) == m3 by {
      var m1 := Step(Push, m);
      FlattenRealizesRender(body, m1);
      assert Below(m1) == m.stack && Top(m1) == f;
      ExecBracket(fb, m);
    }
    assert Exec(Flatten(Matrix(body, next)), m) == Exec(Flatten(next), m3) by {
      ExecAppend([Push] + fb + [Pop], Flatten(next), m);
    }
    assert Exec(Flatten(next), m3) == Machine(Below(m) + [r.frame], m3.draws + r.draws, m.underflows) by {
      FlattenRealizesRender(next, m3);
    }
    assert m3.draws + r.draws == m.draws + (b.draws + r.draws);
  }

  /** A sealed trace hands its caller back the frame it was given. */
  lemma {:induction false} SealedKeepsFrame(t: Trace, f: Word)
    requires Sealed(t)
    ensures Render(t, f).frame == f
  {
    match t
    case End =>
    case Transform(_, _) =>
    case Solid(_, _, next) => SealedKeepsFrame(next, f);
    case Matrix(_, next) => SealedKeepsFrame(next, f);
    case Call(routine, next) =>
      SealedKeepsFrame(routine, f);
      SealedKeepsFrame(next, f);
  }

  /** Stack discipline of a sealed routine: it leaves the transform stack
      exactly as it found it (same depth, same matrices), raises no
      underflow, and appends its scene-graph draws. */
  lemma SealedRestoresStack(t: Trace, m: Machine)
    requires Valid(m) && Sealed(t)
    ensures Exec(Flatten(t), m).stack == m.stack
    ensures Exec(Flatten(t), m).underflows == m.underflows
    ensures Exec(Flatten(t), m).draws == m.draws + Render(t, Top(m)).draws
  {
    FlattenRealizesRender(t, m);
    SealedKeepsFrame(t, Top(m));
  }

  /** The command stream of a trace pushes exactly as often as it pops. */
  lemma {:induction false} FlattenPushesEqualPops(t: Trace)
    ensures Pushes(Flatten(t)) == Pops(Flatten(t))
  {
    match t
    case End =>
    case Transform(x, next) => FlattenPushesEqualPops(next);
    case Solid(_, _, next) => FlattenPushesEqualPops(next);
    case Matrix(body, next) =>
      FlattenPushesEqualPops(body);
      FlattenPushesEqualPops(next);
    case Call(routine, next) =>
      FlattenPushesEqualPops(routine);
      FlattenPushesEqualPops(next);
  }

  /** Every frame a trace draws under, and the frame it leaves, extends the
      frame it started from. */
  lemma {:induction false} RenderExtends(t: Trace, f: Word)
    ensures f <= Render(t, f).frame
    ensures forall e | e in Render(t, f).draws :: f <= e.frame
  {
    match t
    case End =>
    case Transform(x, next) =>
      RenderExtends(next, f + [x]);
    case Solid(_, _, next) =>
      RenderExtends(next, f);
    case Matrix(body, next) =>
      RenderExtends(body, f);
      RenderExtends(next, f);
    case Call(routine, next) =>
      RenderExtends(routine, f);
      RenderExtends(next, Render(routine, f).frame);
  }

  lemma MentionsExtended(f: Word, g: Word, j: Joint)
    requires f <= g && Mentions(f, j)
    ensures Mentions(g, j)
  {
    var x :| x in f && RotatesBy(x, j);
    var i :| 0 <= i < |f| && f[i] == x;
    assert g[i] == x;
  }

  /** The parts a sequence of draws touches. */
  function PartsOf(draws: seq<DrawEvent>): set<Part>
    decreases |draws|
  {
    if |draws| == 0 then {} else {draws[0].part} + PartsOf(draws[1..])
  }

  lemma {:induction false} PartsOfAppend(a: seq<DrawEvent>, b: seq<DrawEvent>)
    ensures PartsOf(a + b) == PartsOf(a) + PartsOf(b)
    decreases |a|
  {
    if |a| == 0 {
      assert a + b == b;
    } else {
      assert (a + b)[0] == a[0];
      assert (a + b)[1..] == a[1..] + b;
      PartsOfAppend(a[1..], b);
    }
  }

  /** `PartsDrawn` is exactly the set of parts the trace's draws touch,
      whatever frame it starts from. */
  lemma {:induction false} RenderDrawsPartsDrawn(t: Trace, f: Word)
    ensures PartsOf(Render(t, f).draws) == PartsDrawn(t)
  {
    match t
    case End =>
    case Transform(x, next) => RenderDrawsPartsDrawn(next, f + [x]);
    case Solid(part, prim, next) =>
      var r := Render(next, f);
      RenderDrawsPartsDrawn(next, f);
      PartsOfAppend([DrawEvent(part, prim, f)], r.draws);
      assert PartsOf([DrawEvent(part, prim, f)]) == {part};
    case Matrix(body, next) =>
      RenderDrawsPartsDrawn(body, f);
      RenderDrawsPartsDrawn(next, f);
      PartsOfAppend(Render(body, f).draws, Render(next, f).draws);
    case Call(routine, next) =>
      var g := Render(routine, f).frame;
      RenderDrawsPartsDrawn(routine, f);
      RenderDrawsPartsDrawn(next, g);
      PartsOfAppend(Render(routine, f).draws, Render(next, g).draws);
  }

  /** Every draw of a trace is of a part the trace names. */
  lemma {:induction false} RenderDrawsNamedParts(t: Trace, f: Word)
    ensures forall e | e in Render(t, f).draws :: e.part in PartsDrawn(t)
  {
    match t
    case End =>
    case Transform(x, next) => RenderDrawsNamedParts(next, f + [x]);
    case Solid(_, _, next) => RenderDrawsNamedParts(next, f);
    case Matrix(body, next) =>
      RenderDrawsNamedParts(body, f);
      RenderDrawsNamedParts(next, f);
    case Call(routine, next) =>
      RenderDrawsNamedParts(routine, f);
      RenderDrawsNamedParts(next, Render(routine, f).frame);
  }

  /** The parts among `draws` drawn in a frame that holds a rotation by
      `j`. */
  function PartsUnder(draws: seq<DrawEvent>, j: Joint): set<Part>
    decreases |draws|
  {
    if |draws| == 0 then {}
    else (if Mentions(draws[0].frame, j) then {draws[0].part} else {}) + PartsUnder(draws[1..], j)
  }

  /** The parts among `draws` drawn in a frame without a rotation by `j`. */
  function PartsFree(draws: seq<DrawEvent>, j: Joint): set<Part>
    decreases |draws|
  {
    if |draws| == 0 then {}
    else (if Mentions(draws[0].frame, j) then {} else {draws[0].part}) + PartsFree(draws[1..], j)
  }

  lemma {:induction false} PartsSplitAppend(a: seq<DrawEvent>, b: seq<DrawEvent>, j: Joint)
    ensures PartsUnder(a + b, j) == PartsUnder(a, j) + PartsUnder(b, j)
    ensures PartsFree(a + b, j) == PartsFree(a, j) + PartsFree(b, j)
    decreases |a|
  {
    if |a| == 0 {
      assert a + b == b;
    } else {
      assert (a + b)[0] == a[0];
      assert (a + b)[1..] == a[1..] + b;
      PartsSplitAppend(a[1..], b, j);
    }
  }

  /** When every draw is under `j`, all drawn parts are under it. */
  lemma {:induction false} AllUnder(draws: seq<DrawEvent>, j: Joint)
    requires forall e | e in draws :: Mentions(e.frame, j)
    ensures PartsUnder(draws, j) == PartsOf(draws)
    ensures PartsFree(draws, j) == {}
    decreases |draws|
  {
    if |draws| > 0 {
      assert draws[0] in draws;
      assert forall e | e in draws[1..] :: e in draws;
      AllUnder(draws[1..], j);
    }
  }

  /** `PartsUnder` and `PartsFree` hold exactly the parts of some draw in,
      respectively out of, a frame with a rotation by `j`. */
  lemma {:induction false} PartsSplitMembers(draws: seq<DrawEvent>, j: Joint, p: Part)
    ensures p in PartsUnder(draws, j) <==> exists e | e in draws :: e.part == p && Mentions(e.frame, j)
    ensures p in PartsFree(draws, j) <==> exists e | e in draws :: e.part == p && !Mentions(e.frame, j)
    decreases |draws|
  {
    if |draws| > 0 {
      PartsSplitMembers(draws[1..], j, p);
      assert draws[0] in draws;
      assert forall e | e in draws[1..] :: e in draws;
      assert forall e | e in draws :: e == draws[0] || e in draws[1..];
    }
  }

  /** From a frame free of joint `j`, `JointReach` is exact: `reached` is
      the set of parts some draw puts under `j`, `unreached` the set some
      draw puts outside it, and `turns` says whether the frame left behind
      holds `j`. */
  lemma {:induction false} JointReachExact(t: Trace, f: Word, j: Joint)
    requires !Mentions(f, j)
    ensures JointReach(t, j).reached == PartsUnder(Render(t, f).draws, j)
    ensures JointReach(t, j).unreached == PartsFree(Render(t, f).draws, j)
    ensures Mentions(Render(t, f).frame, j) <==> JointReach(t, j).turns
  {
    match t
    case End =>
    case Transform(x, next) =>
      var g := f + [x];
      if RotatesBy(x, j) {
        assert g[|f|] == x;
        assert Mentions(g, j);
        UnderAll(next, g, j);
      } else {
        assert !Mentions(g, j) by {
          forall y | y in g ensures !RotatesBy(y, j) {
            assert y in f || y == x;
          }
        }
        JointReachExact(next, g, j);
      }
    case Solid(part, prim, next) =>
      var d := DrawEvent(part, prim, f);
      var rest := Render(next, f).draws;
      JointReachExact(next, f, j);
      assert ([d] + rest)[1..] == rest;
    case Matrix(body, next) =>
      JointReachExact(body, f, j);
      JointReachExact(next, f, j);
      PartsSplitAppend(Render(body, f).draws, Render(next, f).draws, j);
    case Call(routine, next) =>
      JointReachExact(routine, f, j);
      var g := Render(routine, f).frame;
      PartsSplitAppend(Render(routine, f).draws, Render(next, g).draws, j);
      if Mentions(g, j) {
        UnderAll(next, g, j);
      } else {
        JointReachExact(next, g, j);
      }
  }

  /** Everything a trace draws from a frame holding `j` is under `j`, and
      so is the frame it leaves. */
  lemma UnderAll(t: Trace, g: Word, j: Joint)
    requires Mentions(g, j)
    ensures PartsUnder(Render(t, g).draws, j) == PartsDrawn(t)
    ensures PartsFree(Render(t, g).draws, j) == {}
    ensures Mentions(Render(t, g).frame, j)
  {
    RenderExtends(t, g);
    RenderDrawsPartsDrawn(t, g);
    forall e | e in Render(t, g).draws ensures Mentions(e.frame, j) {
      MentionsExtended(g, e.frame, j);
    }
    MentionsExtended(g, Render(t, g).frame, j);
    AllUnder(Render(t, g).draws, j);
  }

  /** From a frame free of joint `j`, a part is in `reached` exactly when
      some draw of it has a rotation by `j` in its frame, and in
      `unreached` exactly when some draw of it has none; the frame left
      behind holds `j` exactly when `turns`. */
  lemma JointReachSound(t: Trace, f: Word, j: Joint)
    requires !Mentions(f, j)
    ensures forall e | e in Render(t, f).draws ::
              (Mentions(e.frame, j) ==> e.part in JointReach(t, j).reached) &&
              (!Mentions(e.frame, j) ==> e.part in JointReach(t, j).unreached)
    ensures forall p | p in JointReach(t, j).reached ::
              exists e | e in Render(t, f).draws :: e.part == p && Mentions(e.frame, j)
    ensures forall p | p in JointReach(t, j).unreached ::
              exists e | e in Render(t, f).draws :: e.part == p && !Mentions(e.frame, j)
    ensures Mentions(Render(t, f).frame, j) <==> JointReach(t, j).turns
  {
    var draws := Render(t, f).draws;
    JointReachExact(t, f, j);
    forall p | p in JointReach(t, j).reached + JointReach(t, j).unreached
      ensures (p in JointReach(t, j).reached ==>
                exists e | e in draws :: e.part == p && Mentions(e.frame, j)) &&
              (p in JointReach(t, j).unreached ==>
                exists e | e in draws :: e.part == p && !Mentions(e.frame, j))
    {
      PartsSplitMembers(draws, j, p);
    }
    forall e | e in draws
      ensures (Mentions(e.frame, j) ==> e.part in JointReach(t, j).reached) &&
              (!Mentions(e.frame, j) ==> e.part in JointReach(t, j).unreached)
    {
      PartsSplitMembers(draws, j, e.part);
    }
  }
}
