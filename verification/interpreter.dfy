/** The command interpreter: one dispatch step per command, and the walk
    over the whole command sequence in script order. */
module Interpreter {
  import opened Transforms
  import opened Session
  import opened Ops

  /** C's conversion of a double to an integer colour channel: truncation
      toward zero. Values beyond the range of a C int are not modelled. */
  function Trunc(x: real): (n: int)
    ensures 0.0 <= x ==> n as real <= x < n as real + 1.0
    ensures x < 0.0 ==> n as real - 1.0 < x <= n as real
  {
    if x >= 0.0 then x.Floor else -((-x).Floor)
  }

  function ToColor(c: Vec3): Color {
    Color(Trunc(c.x), Trunc(c.y), Trunc(c.z))
  }

  /** The constants a solid is drawn with: its own if it names any,
      the default ones otherwise. */
  function Resolve(constants: Option<Constants>, white: Constants): Constants {
    match constants
    case Some(c) => c
    case None => white
  }

  /** The geometry a drawing command asks its generator for. */
  function Generated(op: Op): Geometry
    requires IsSolid(op) || op.Line?
  {
    match op
    case Sphere(_, center, radius, _) => SphereMesh(center, radius, Step3d)
    case Torus(_, center, r0, r1, _) => TorusMesh(center, r0, r1, Step3d)
    case Box(_, corner, dims, _) => BoxMesh(corner, dims)
    case Line(p0, p1, _) => EdgeMesh(p0, p1)
  }

  /** The rotation factory for an axis number, if the axis is one of x, y, z. */
  function Rotation(axis: int, a: Angle): Option<Transform> {
    if axis == 0 then Some(RotX(a))
    else if axis == 1 then Some(RotY(a))
    else if axis == 2 then Some(RotZ(a))
    else None
  }

  /** When a command cannot be carried out: popping the last origin,
      rotating about an axis that is not 0, 1 or 2, or drawing through a
      buffer that was never allocated. */
  predicate Fails(s: State, op: Op) {
    || (op.Pop? && |s.stack| <= 1)
    || (op.Rotate? && !(0 <= op.axis <= 2))
    || (IsSolid(op) && s.polygons.Unallocated?)
    || (op.Line? && s.edges.Unallocated?)
  }

  /** LIGHT: the point light takes the command's colour; its location and
      everything else stay. */
  function SetLight(s: State, c: Vec3): (t: State)
    ensures t.light.color == c && t.light.location == s.light.location
    ensures t == s.(light := t.light)
  {
    s.(light := s.light.(color := c))
  }

  /** AMBIENT: the ambient colour takes the command's colour, each channel
      truncated to an integer; everything else stays. */
  function SetAmbient(s: State, c: Vec3): (t: State)
    ensures t.ambient == Color(Trunc(c.x), Trunc(c.y), Trunc(c.z))
    ensures t == s.(ambient := t.ambient)
  {
    s.(ambient := ToColor(c))
  }

  /** The buffer after a generator appended `columns` columns to it. */
  function Filled(b: Buffer, columns: nat): Buffer
    requires b.Allocated?
  {
    b.(lastcol := b.lastcol + columns)
  }

  /** SPHERE, TORUS, BOX: select the constants, generate into the polygon
      buffer, draw it through the current top with the lighting in force,
      and reset the buffer's logical length. */
  function DrawSolid(s: State, i: nat, op: Op): (r: Result<State>)
    requires |s.stack| > 0 && IsSolid(op)
    ensures r.Err? <==> s.polygons.Unallocated?
    ensures r.Err? ==> r.error == UnallocatedBuffer(i)
    ensures r.Ok? ==>
              && r.value.reflect == (if op.constants.Some? then op.constants.value else s.white)
              && r.value.polygons == Allocated(0)
              && r.value.trace == s.trace + [PolygonsDrawn(Generated(op), Top(s), s.polygons.lastcol,
                                                           s.polygons.lastcol + op.columns,
                                                           s.view, s.light, s.ambient, r.value.reflect)]
              && r.value == s.(reflect := r.value.reflect, polygons := r.value.polygons, trace := r.value.trace)
  {
    if s.polygons.Unallocated? then Err(UnallocatedBuffer(i))
    else
      var reflect := Resolve(op.constants, s.white);
      var filled := Filled(s.polygons, op.columns);
      Ok(s.(reflect := reflect, polygons := filled.(lastcol := 0),
            trace := s.trace + [PolygonsDrawn(Generated(op), Top(s), s.polygons.lastcol, filled.lastcol,
                                              s.view, s.light, s.ambient, reflect)]))
  }

  /** LINE: generate into the edge buffer, draw it black through the current
      top, and reset the buffer's logical length. */
  function DrawLine(s: State, i: nat, op: Op): (r: Result<State>)
    requires |s.stack| > 0 && op.Line?
    ensures r.Err? <==> s.edges.Unallocated?
    ensures r.Err? ==> r.error == UnallocatedBuffer(i)
    ensures r.Ok? ==>
              && r.value.edges == Allocated(0)
              && r.value.trace == s.trace + [LinesDrawn(EdgeMesh(op.p0, op.p1), Top(s), s.edges.lastcol,
                                                        s.edges.lastcol + op.columns, Color(0, 0, 0))]
              && r.value == s.(edges := r.value.edges, trace := r.value.trace)
  {
    if s.edges.Unallocated? then Err(UnallocatedBuffer(i))
    else
      var filled := Filled(s.edges, op.columns);
      Ok(s.(edges := filled.(lastcol := 0),
            trace := s.trace + [LinesDrawn(Generated(op), Top(s), s.edges.lastcol, filled.lastcol, LineColor)]))
  }

  /** MOVE, SCALE, ROTATE: the top becomes Mult(old top, t); the entries
      below it and everything else stay. */
  function Compose(s: State, t: Transform): (u: State)
    requires |s.stack| > 0
    ensures |u.stack| == |s.stack|
    ensures u.stack[..|s.stack| - 1] == s.stack[..|s.stack| - 1]
    ensures Top(u) == Mult(Top(s), t)
    ensures u == s.(stack := u.stack)
  {
    s.(stack := s.stack[..|s.stack| - 1] + [Mult(Top(s), t)])
  }

  /** PUSH: a copy of the top goes on top. */
  function PushOrigin(s: State): (t: State)
    requires |s.stack| > 0
    ensures |t.stack| == |s.stack| + 1
    ensures t.stack[..|s.stack|] == s.stack && Top(t) == Top(s)
    ensures t == s.(stack := t.stack)
  {
    s.(stack := s.stack + [Top(s)])
  }

  /** POP: the top goes, unless it is the last origin. */
  function PopOrigin(s: State, i: nat): (r: Result<State>)
    requires |s.stack| > 0
    ensures r.Err? <==> |s.stack| == 1
    ensures r.Err? ==> r.error == StackUnderflow(i)
    ensures r.Ok? ==> r.value.stack + [Top(s)] == s.stack && r.value == s.(stack := r.value.stack)
  {
    if |s.stack| <= 1 then Err(StackUnderflow(i))
    else Ok(s.(stack := s.stack[..|s.stack| - 1]))
  }

  /** Dispatch of command number `i` on the state left by command `i - 1`. */
  function Step(s: State, i: nat, op: Op): (r: Result<State>)
    requires |s.stack| > 0
    // what every command keeps
    ensures r.Ok? ==> |r.value.stack| == |s.stack| + DepthChange(op) > 0
    // the placeholders and unlisted opcodes leave the state alone
    ensures IsWip(op) || op.Unlisted? ==> r == Ok(s)
  {
    match op
    case Light(c) => Ok(SetLight(s, c))
    case Ambient(c) => Ok(SetAmbient(s, c))
    case Sphere(_, _, _, _) => DrawSolid(s, i, op)
    case Torus(_, _, _, _, _) => DrawSolid(s, i, op)
    case Box(_, _, _, _) => DrawSolid(s, i, op)
    case Line(_, _, _) => DrawLine(s, i, op)
    case Move(d) => Ok(Compose(s, Translation(d)))
    case Scale(d) => Ok(Compose(s, Scaling(d)))
    case Rotate(axis, degrees) =>
      (match Rotation(axis, FromDegrees(degrees))
       case Some(t) => Ok(Compose(s, t))
       case None => Err(BadAxis(i, axis)))
    case Push => Ok(PushOrigin(s))
    case Pop => PopOrigin(s, i)
    case Save(name) => Ok(s.(trace := s.trace + [Saved(name)]))
    case Display => Ok(s.(trace := s.trace + [Displayed]))
    case Unimplemented(_) => Ok(s)
    case Unlisted(_) => Ok(s)
  }

  /** A step fails exactly for the reasons `Fails` names, and reports the
      command's own index. */
  lemma {:induction false} StepFails(s: State, i: nat, op: Op)
    requires |s.stack| > 0
    ensures Step(s, i, op).Err? <==> Fails(s, op)
    ensures Step(s, i, op).Err? ==>
              Step(s, i, op).error == (if op.Pop? then StackUnderflow(i)
                                       else if op.Rotate? then BadAxis(i, op.axis)
                                       else UnallocatedBuffer(i))
  {
  }

  /** A step never changes the default constants and keeps empty buffers
      empty. */
  lemma {:induction false} StepKeeps(s: State, i: nat, op: Op)
    requires |s.stack| > 0
    ensures Step(s, i, op).Ok? ==> Step(s, i, op).value.white == s.white
    ensures Step(s, i, op).Ok? && Idle(s) ==> Idle(Step(s, i, op).value)
  {
  }

  /** A step keeps the trace so far and adds one request exactly when the
      command is a draw, a save or a display. */
  lemma {:induction false} StepTrace(s: State, i: nat, op: Op)
    requires |s.stack| > 0
    ensures Step(s, i, op).Ok? ==>
              && |Step(s, i, op).value.trace| == |s.trace| + (if Emits(op) then 1 else 0)
              && s.trace <= Step(s, i, op).value.trace
  {
  }

  /** MOVE, SCALE and ROTATE change the top of the origin stack and
      nothing else. */
  lemma {:induction false} StepTransform(s: State, i: nat, op: Op)
    requires |s.stack| > 0 && IsTransform(op)
    ensures var r := Step(s, i, op);
            r.Ok? ==> && |r.value.stack| == |s.stack|
                      && r.value.stack[..|s.stack| - 1] == s.stack[..|s.stack| - 1]
                      && r.value == s.(stack := r.value.stack)
    ensures op.Move? ==> Top(Step(s, i, op).value) == Mult(Top(s), Translation(op.offset))
    ensures op.Scale? ==> Top(Step(s, i, op).value) == Mult(Top(s), Scaling(op.factors))
    ensures op.Rotate? && op.axis == 0 ==> Top(Step(s, i, op).value) == Mult(Top(s), RotX(FromDegrees(op.degrees)))
    ensures op.Rotate? && op.axis == 1 ==> Top(Step(s, i, op).value) == Mult(Top(s), RotY(FromDegrees(op.degrees)))
    ensures op.Rotate? && op.axis == 2 ==> Top(Step(s, i, op).value) == Mult(Top(s), RotZ(FromDegrees(op.degrees)))
  {
  }

  /** SAVE and DISPLAY issue their request and change nothing else. */
  lemma {:induction false} StepRequests(s: State, i: nat, name: string)
    requires |s.stack| > 0
    ensures Step(s, i, Save(name)) == Ok(s.(trace := s.trace + [Saved(name)]))
    ensures Step(s, i, Display) == Ok(s.(trace := s.trace + [Displayed]))
  {
  }

  /** Commands `ops`, numbered from `k`, dispatched one after the other,
      each on the state the previous one left; the first failure stops. */
  function RunAt(s: State, ops: seq<Op>, k: nat): (r: Result<State>)
    requires |s.stack| > 0
    ensures r.Ok? ==> |r.value.stack| > 0
    decreases |ops|
  {
    if ops == [] then Ok(s)
    else
      match Step(s, k, ops[0])
      case Err(e) => Err(e)
      case Ok(t) => RunAt(t, ops[1..], k + 1)
  }

  /** What a run keeps: the depth moves by pushes minus pops and stays
      positive, the default constants never change, the trace only grows,
      by one request per draw, save or display, and empty buffers stay
      empty. A failure names a command of the run. */
  lemma {:induction false} RunKeeps(s: State, ops: seq<Op>, k: nat)
    requires |s.stack| > 0
    ensures var r := RunAt(s, ops, k);
            && (r.Ok? ==> |r.value.stack| == |s.stack| + NetDepth(ops) > 0)
            && (r.Ok? ==> r.value.white == s.white)
            && (r.Ok? ==> s.trace <= r.value.trace && |r.value.trace| == |s.trace| + EmitCount(ops))
            && (r.Ok? && Idle(s) ==> Idle(r.value))
            && (r.Err? ==> k <= r.error.index < k + |ops|)
    decreases |ops|
  {
    if ops != [] {
      StepKeeps(s, k, ops[0]);
      StepTrace(s, k, ops[0]);
      var r := Step(s, k, ops[0]);
      if r.Ok? {
        RunKeeps(r.value, ops[1..], k + 1);
      }
    }
  }

  /** A whole script, from the initial session state. */
  function Run(ops: seq<Op>): (r: Result<State>)
    ensures r.Ok? ==> |r.value.stack| == 1 + NetDepth(ops) && r.value.white == White
    ensures r.Ok? ==> Idle(r.value) && |r.value.trace| == EmitCount(ops)
    ensures r.Err? ==> r.error.index < |ops|
  {
    RunKeeps(Initial(), ops, 0);
    RunAt(Initial(), ops, 0)
  }

  /** The interpreter loop itself: index `i` from 0 up, one dispatch each. */
  method Interpret(ops: seq<Op>) returns (r: Result<State>)
    ensures r == Run(ops)
  {
    var s := Initial();
    var i := 0;
    while i < |ops|
      invariant i <= |ops|
      invariant |s.stack| > 0
      invariant RunAt(s, ops[i..], i) == Run(ops)
    {
      assert ops[i..][0] == ops[i] && ops[i..][1..] == ops[i + 1..];
      var next := Step(s, i, ops[i]);
      if next.Err? {
        return next;
      }
      s := next.value;
      i := i + 1;
    }
    return Ok(s);
  }
}
