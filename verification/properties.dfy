/** Properties of whole command sequences: order of dispatch, the origin
    stack discipline, the buffer reset, and which state each command reads. */
module Properties {
  import opened Transforms
  import opened Session
  import opened Ops
  import opened Interpreter

  /** Running `a + b` is running `a`, then `b` (numbered on from `a`) on the
      state `a` left; a failure in `a` ends the run. */
  lemma {:induction false} RunAppend(s: State, a: seq<Op>, b: seq<Op>, k: nat)
    requires |s.stack| > 0
    ensures RunAt(s, a + b, k) == if RunAt(s, a, k).Err? then RunAt(s, a, k)
                                  else RunAt(RunAt(s, a, k).value, b, k + |a|)
    decreases |a|
  {
    if a == [] {
      assert a + b == b;
    } else {
      assert (a + b)[0] == a[0] && (a + b)[1..] == a[1..] + b;
      match Step(s, k, a[0])
      case Err(_) =>
      case Ok(t) => RunAppend(t, a[1..], b, k + 1);
    }
  }

  /** Command `i` is dispatched on exactly the state commands `0..i-1` left,
      with its own index. */
  lemma {:induction false} RunSnoc(s: State, ops: seq<Op>, op: Op)
    requires |s.stack| > 0
    ensures RunAt(s, ops + [op], 0) == if RunAt(s, ops, 0).Err? then RunAt(s, ops, 0)
                                       else Step(RunAt(s, ops, 0).value, |ops|, op)
  {
    RunAppend(s, ops, [op], 0);
    match RunAt(s, ops, 0)
    case Err(_) =>
    case Ok(t) => assert [op][1..] == [];
  }

  /** POP right after PUSH gives back the state before the PUSH. */
  lemma {:induction false} PushPopRestores(s: State, k: nat)
    requires |s.stack| > 0
    ensures RunAt(s, [Push, Pop], k) == Ok(s)
  {
  }

  /** Of two LIGHT (or two AMBIENT) commands in a row, only the second
      one's colour survives. */
  lemma {:induction false} LightingLastWriterWins(s: State, a: Vec3, b: Vec3, k: nat)
    requires |s.stack| > 0
    ensures RunAt(s, [Light(a), Light(b)], k) == RunAt(s, [Light(b)], k + 1)
    ensures RunAt(s, [Ambient(a), Ambient(b)], k) == RunAt(s, [Ambient(b)], k + 1)
  {
  }

  /** A run that succeeds never pops below one origin: every prefix of it has
      at least as many origins pushed, counting the ones already there, as
      it pops. */
  lemma {:induction false} NoUnderflow(s: State, ops: seq<Op>, k: nat)
    requires |s.stack| > 0
    requires RunAt(s, ops, k).Ok?
    ensures forall j :: 0 <= j <= |ops| ==> |s.stack| + NetDepth(ops[..j]) >= 1
    decreases |ops|
  {
    if ops != [] {
      var t := Step(s, k, ops[0]).value;
      NoUnderflow(t, ops[1..], k + 1);
      forall j | 0 <= j <= |ops|
        ensures |s.stack| + NetDepth(ops[..j]) >= 1
      {
        if j > 0 {
          assert ops[..j][0] == ops[0] && ops[..j][1..] == ops[1..][..j - 1];
        }
      }
    }
  }

  /** Every draw in a trace found its buffer logically empty. */
  predicate NoLeftovers(trace: seq<Event>) {
    forall j :: 0 <= j < |trace| && (trace[j].PolygonsDrawn? || trace[j].LinesDrawn?)
                ==> trace[j].leftover == 0
  }

  /** Because each draw resets its buffer, every draw of a run that starts
      with empty buffers finds its buffer empty, so it renders only the
      columns its own command generated. */
  lemma {:induction false} DrawsSeeEmptyBuffers(s: State, ops: seq<Op>, k: nat)
    requires |s.stack| > 0 && Idle(s)
    requires RunAt(s, ops, k).Ok?
    ensures |s.trace| <= |RunAt(s, ops, k).value.trace|
    ensures NoLeftovers(RunAt(s, ops, k).value.trace[|s.trace|..])
    decreases |ops|
  {
    RunKeeps(s, ops, k);
    if ops != [] {
      var t := Step(s, k, ops[0]).value;
      StepTrace(s, k, ops[0]);
      StepKeeps(s, k, ops[0]);
      DrawsSeeEmptyBuffers(t, ops[1..], k + 1);
      RunKeeps(t, ops[1..], k + 1);
      var f := RunAt(t, ops[1..], k + 1).value;
      assert f == RunAt(s, ops, k).value;
      assert f.trace[..|t.trace|] == t.trace && t.trace[..|s.trace|] == s.trace;
      var added := t.trace[|s.trace|..];
      assert NoLeftovers(added) by {
        if IsSolid(ops[0]) {
          assert added == [t.trace[|s.trace|]];
        } else if ops[0].Line? {
          assert added == [t.trace[|s.trace|]];
        } else {
          assert forall j :: 0 <= j < |added| ==> !added[j].PolygonsDrawn? && !added[j].LinesDrawn?;
        }
      }
      assert f.trace[|s.trace|..] == added + f.trace[|t.trace|..];
    }
  }

  /** A whole script never draws leftover geometry. */
  lemma {:induction false} ScriptDrawsSeeEmptyBuffers(ops: seq<Op>)
    requires Run(ops).Ok?
    ensures NoLeftovers(Run(ops).value.trace)
  {
    DrawsSeeEmptyBuffers(Initial(), ops, 0);
    assert Run(ops).value.trace[0..] == Run(ops).value.trace;
  }

  /** Two outcomes that agree except, perhaps, in the selected constants. */
  predicate AgreeButReflect(r1: Result<State>, r2: Result<State>) {
    && r1.Err? == r2.Err?
    && (r1.Err? ==> r1.error == r2.error)
    && (r1.Ok? ==> r1.value.(reflect := r2.value.reflect) == r2.value)
  }

  /** The selected constants are never read before a solid overwrites them:
      runs from states differing only there agree on everything else, the
      requests they issue included. */
  lemma {:induction false} ReflectNeverRead(s: State, c: Constants, ops: seq<Op>, k: nat)
    requires |s.stack| > 0
    ensures AgreeButReflect(RunAt(s, ops, k), RunAt(s.(reflect := c), ops, k))
    decreases |ops|
  {
    if ops != [] {
      var s2 := s.(reflect := c);
      match Step(s, k, ops[0])
      case Err(_) =>
        StepFails(s, k, ops[0]);
        StepFails(s2, k, ops[0]);
      case Ok(t) =>
        StepFails(s2, k, ops[0]);
        var t2 := Step(s2, k, ops[0]).value;
        if IsSolid(ops[0]) {
          assert t2 == t;
        } else {
          assert t2 == t.(reflect := c);
          ReflectNeverRead(t, c, ops[1..], k + 1);
        }
    }
  }

  /** A command's index only labels its error: whether a run succeeds, and
      the state it ends in, do not depend on where the numbering starts. */
  lemma {:induction false} IndexOnlyLabels(s: State, ops: seq<Op>, k: nat, k': nat)
    requires |s.stack| > 0
    ensures RunAt(s, ops, k).Ok? == RunAt(s, ops, k').Ok?
    ensures RunAt(s, ops, k).Ok? ==> RunAt(s, ops, k).value == RunAt(s, ops, k').value
    decreases |ops|
  {
    if ops != [] {
      StepFails(s, k, ops[0]);
      StepFails(s, k', ops[0]);
      match Step(s, k, ops[0])
      case Err(_) =>
      case Ok(t) => IndexOnlyLabels(t, ops[1..], k + 1, k' + 1);
    }
  }

  /** An unimplemented command only uses up its index. */
  lemma {:induction false} WipSkipped(t: State, w: Op, b: seq<Op>, k: nat)
    requires |t.stack| > 0 && (IsWip(w) || w.Unlisted?)
    ensures RunAt(t, [w] + b, k) == RunAt(t, b, k + 1)
  {
  }

  /** An unimplemented command between two parts of a script changes
      nothing: the script succeeds with it exactly when it does without it,
      and ends in the same state. */
  lemma {:induction false} WipTransparent(s: State, a: seq<Op>, w: Op, b: seq<Op>)
    requires |s.stack| > 0 && (IsWip(w) || w.Unlisted?)
    ensures RunAt(s, a + [w] + b, 0).Ok? == RunAt(s, a + b, 0).Ok?
    ensures RunAt(s, a + b, 0).Ok? ==> RunAt(s, a + [w] + b, 0).value == RunAt(s, a + b, 0).value
  {
    var r := RunAt(s, a, 0);
    WithWip(s, a, w, b);
    RunAppend(s, a, b, 0);
    if r.Ok? {
      IndexOnlyLabels(r.value, b, |a| + 1, |a|);
    }
  }

  lemma {:induction false} WithWip(s: State, a: seq<Op>, w: Op, b: seq<Op>)
    requires |s.stack| > 0 && (IsWip(w) || w.Unlisted?)
    ensures RunAt(s, a + [w] + b, 0) == if RunAt(s, a, 0).Err? then RunAt(s, a, 0)
                                        else RunAt(RunAt(s, a, 0).value, b, |a| + 1)
  {
    assert a + [w] + b == a + ([w] + b);
    RunAppend(s, a, [w] + b, 0);
    if RunAt(s, a, 0).Ok? {
      WipSkipped(RunAt(s, a, 0).value, w, b, |a|);
    }
  }

  /** Starting with both buffers allocated, the only failures are an
      underflowing POP and a ROTATE about an unknown axis. */
  lemma {:induction false} AllocatedRunsNeverLackBuffers(s: State, ops: seq<Op>, k: nat)
    requires |s.stack| > 0 && s.polygons.Allocated? && s.edges.Allocated?
    ensures RunAt(s, ops, k).Err? ==>
              RunAt(s, ops, k).error.StackUnderflow? || RunAt(s, ops, k).error.BadAxis?
    decreases |ops|
  {
    if ops != [] {
      StepFails(s, k, ops[0]);
      match Step(s, k, ops[0])
      case Err(_) =>
      case Ok(t) => AllocatedRunsNeverLackBuffers(t, ops[1..], k + 1);
    }
  }
}
