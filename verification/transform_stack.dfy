/** The matrix stack the draw routines drive, as a command stream over a
    stack of frames. As in OpenGL, the stack always holds at least one
    matrix; popping the last one is ignored and records a stack-underflow
    error instead. */
module TransformStack {
  import opened Kinematics
  import opened Scene

  /** One command of the stream: glPushMatrix, glPopMatrix, a
      glTranslatef/glRotatef/glScalef, or a draw call. */
  datatype Op = Push | Pop | Mult(x: Xform) | Draw(part: Part, prim: Prim)

  /** A primitive drawn under the frame that was current at that moment. */
  datatype DrawEvent = DrawEvent(part: Part, prim: Prim, frame: Word)

  datatype Machine = Machine(stack: seq<Word>, draws: seq<DrawEvent>, underflows: nat)

  predicate Valid(m: Machine) {
    |m.stack| >= 1
  }

  function Top(m: Machine): Word
    requires Valid(m)
  {
    m.stack[|m.stack| - 1]
  }

  /** Everything below the top of the stack. */
  function Below(m: Machine): seq<Word>
    requires Valid(m)
  {
    m.stack[..|m.stack| - 1]
  }

  /** One command. A push copies the top, a pop drops it unless it is the
      last matrix (then only the error count grows), a transform multiplies
      the top on the right, and a draw records the current top. */
  function Step(op: Op, m: Machine): (r: Machine)
    requires Valid(m)
    ensures Valid(r)
    ensures op.Pop? && |m.stack| == 1 <==> r.underflows == m.underflows + 1
    ensures !(op.Pop? && |m.stack| == 1) ==> r.underflows == m.underflows
    ensures op.Push? ==> r.stack == m.stack + [Top(m)]
    ensures op.Pop? && |m.stack| > 1 ==> r.stack == Below(m)
    ensures op.Pop? && |m.stack| == 1 ==> r.stack == m.stack
    ensures op.Mult? ==> r.stack == Below(m) + [Top(m) + [op.x]]
    ensures op.Draw? ==> r.stack == m.stack
    ensures op.Draw? ==> r.draws == m.draws + [DrawEvent(op.part, op.prim, Top(m))]
    ensures !op.Draw? ==> r.draws == m.draws
  {
    match op
    case Push => m.(stack := m.stack + [Top(m)])
    case Pop =>
      if |m.stack| == 1 then m.(underflows := m.underflows + 1)
      else m.(stack := Below(m))
    case Mult(x) => m.(stack := Below(m) + [Top(m) + [x]])
    case Draw(part, prim) => m.(draws := m.draws + [DrawEvent(part, prim, Top(m))])
  }

  function Exec(ops: seq<Op>, m: Machine): (r: Machine)
    requires Valid(m)
    ensures Valid(r)
    decreases |ops|
  {
    if |ops| == 0 then m else Exec(ops[1..], Step(ops[0], m))
  }

  lemma {:induction false} ExecAppend(a: seq<Op>, b: seq<Op>, m: Machine)
    requires Valid(m)
    ensures Exec(a + b, m) == Exec(b, Exec(a, m))
    decreases |a|
  {
    if |a| == 0 {
      assert a + b == b;
    } else {
      assert (a + b)[0] == a[0];
      assert (a + b)[1..] == a[1..] + b;
      ExecAppend(a[1..], b, Step(a[0], m));
    }
  }

  /** Running one command before a stream. */
  lemma ExecCons(op: Op, ops: seq<Op>, m: Machine)
    requires Valid(m)
    ensures Exec([op] + ops, m) == Exec(ops, Step(op, m))
  {
    assert ([op] + ops)[1..] == ops;
  }

  /** Running one more command after a stream. */
  lemma ExecSnoc(a: seq<Op>, op: Op, m: Machine)
    requires Valid(m)
    ensures Exec(a + [op], m) == Step(op, Exec(a, m))
  {
    ExecAppend(a, [op], m);
    assert [op][1..] == [];
  }

  /** A pop from a stack one matrix above `m`'s returns to `m`'s stack. */
  lemma PopReturns(m2: Machine, m: Machine)
    requires Valid(m) && Valid(m2) && Below(m2) == m.stack
    ensures Step(Pop, m2) == m2.(stack := m.stack)
  {
  }

  /** A bracketed block: if `ops`, run after the push, ends one matrix
      above where it started, the closing pop returns the stack to exactly
      what it was before the push, keeping the block's draws and errors. */
  lemma ExecBracket(ops: seq<Op>, m: Machine)
    requires Valid(m)
    requires Below(Exec(ops, Step(Push, m))) == m.stack
    ensures Exec([Push] + ops + [Pop], m)
         == Exec(ops, Step(Push, m)).(stack := m.stack)
  {
    ExecSnoc([Push] + ops, Pop, m);
    ExecCons(Push, ops, m);
    PopReturns(Exec(ops, Step(Push, m)), m);
  }

  function Pushes(ops: seq<Op>): nat {
    multiset(ops)[Push]
  }

  function Pops(ops: seq<Op>): nat {
    multiset(ops)[Pop]
  }
}
