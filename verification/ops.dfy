/** The compiled script: one `Op` per command, in script order. */
module Ops {
  import opened Transforms
  import opened Session

  /** The commands the interpreter accepts but does not implement. */
  datatype Placeholder =
    | SaveCoords | Camera | Mesh | Set | Basename | SaveKnobs | Tween
    | Frames | Vary | GenerateRayfiles | Shading | SetKnobs | Focal

  /** A drawing command carries, as `columns`, the number of columns its
      generator appends to the scratch buffer; the generators themselves are
      external, so the count is data of the command. */
  datatype Op =
    | Light(color: Vec3)
    | Ambient(color: Vec3)
    | Sphere(constants: Option<Constants>, center: Vec3, radius: real, columns: nat)
    | Torus(constants: Option<Constants>, center: Vec3, r0: real, r1: real, columns: nat)
    | Box(constants: Option<Constants>, corner: Vec3, dims: Vec3, columns: nat)
    | Line(p0: Vec3, p1: Vec3, columns: nat)
    | Move(offset: Vec3)
    | Scale(factors: Vec3)
    | Rotate(axis: int, degrees: real)
    | Push
    | Pop
    | Save(name: string)
    | Display
    | Unimplemented(which: Placeholder)
      /** An opcode the dispatch has no case for. */
    | Unlisted(opcode: int)

  /** The solids, drawn through the polygon buffer. */
  predicate IsSolid(op: Op) {
    op.Sphere? || op.Torus? || op.Box?
  }

  /** Commands that only print a diagnostic. */
  predicate IsWip(op: Op) {
    op.Unimplemented?
  }

  /** Commands that issue one request to a collaborator. */
  predicate Emits(op: Op) {
    IsSolid(op) || op.Line? || op.Save? || op.Display?
  }

  /** Commands that replace the top of the origin stack. */
  predicate IsTransform(op: Op) {
    op.Move? || op.Scale? || op.Rotate?
  }

  function DepthChange(op: Op): int {
    if op.Push? then 1 else if op.Pop? then -1 else 0
  }

  /** Pushes minus pops over a command sequence. */
  function NetDepth(ops: seq<Op>): int {
    if ops == [] then 0 else DepthChange(ops[0]) + NetDepth(ops[1..])
  }

  /** How many requests a command sequence issues. */
  function EmitCount(ops: seq<Op>): nat {
    if ops == [] then 0 else (if Emits(ops[0]) then 1 else 0) + EmitCount(ops[1..])
  }
}
