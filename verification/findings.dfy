/** The scratch buffers as the interpreter leaves them: its `polygons` and
    `edges` pointers are declared but never allocated before the first draw. */
module Findings {
  import opened Transforms
  import opened Session
  import opened Ops
  import opened Interpreter
  import Properties

  /** The session state as written: neither scratch buffer allocated. */
  function InitialAsWritten(): (s: State)
    ensures s == Initial().(polygons := Unallocated, edges := Unallocated)
  {
    State([Identity], DefaultAmbient, DefaultLight, DefaultView, White, White,
          Unallocated, Unallocated, [])
  }

  /** Commands that use neither scratch buffer. */
  predicate DrawFree(ops: seq<Op>) {
    forall j :: 0 <= j < |ops| ==> !IsSolid(ops[j]) && !ops[j].Line?
  }

  /** A run of commands that draw nothing leaves both buffers unallocated. */
  lemma {:induction false} DrawFreeKeepsUnallocated(s: State, ops: seq<Op>, k: nat)
    requires |s.stack| > 0 && s.polygons.Unallocated? && s.edges.Unallocated?
    requires DrawFree(ops) && RunAt(s, ops, k).Ok?
    ensures RunAt(s, ops, k).value.polygons.Unallocated? && RunAt(s, ops, k).value.edges.Unallocated?
    decreases |ops|
  {
    if ops != [] {
      var t := Step(s, k, ops[0]).value;
      assert t.polygons.Unallocated? && t.edges.Unallocated?;
      assert DrawFree(ops[1..]) by {
        forall j | 0 <= j < |ops[1..]| ensures !IsSolid(ops[1..][j]) && !ops[1..][j].Line? {
          assert ops[1..][j] == ops[j + 1];
        }
      }
      DrawFreeKeepsUnallocated(t, ops[1..], k + 1);
    }
  }

  /** As written, the first SPHERE, TORUS, BOX or LINE of any script, at
      whatever index it stands, has no buffer to generate into. */
  lemma {:induction false} AsWrittenFirstDrawFails(a: seq<Op>, op: Op, rest: seq<Op>)
    requires DrawFree(a) && RunAt(InitialAsWritten(), a, 0).Ok?
    requires IsSolid(op) || op.Line?
    ensures RunAt(InitialAsWritten(), a + [op] + rest, 0) == Err(UnallocatedBuffer(|a|))
  {
    var s := InitialAsWritten();
    DrawFreeKeepsUnallocated(s, a, 0);
    assert a + [op] + rest == a + ([op] + rest);
    Properties.RunAppend(s, a, [op] + rest, 0);
    var t := RunAt(s, a, 0).value;
    StepFails(t, |a|, op);
    assert ([op] + rest)[0] == op;
  }

  /** With both buffers allocated up front, no script ever fails for want of
      a buffer: only an underflowing POP or an unknown ROTATE axis stops it. */
  lemma {:induction false} ScriptsNeverLackBuffers(ops: seq<Op>)
    ensures Run(ops).Err? ==> Run(ops).error.StackUnderflow? || Run(ops).error.BadAxis?
  {
    Properties.AllocatedRunsNeverLackBuffers(Initial(), ops, 0);
  }
}
