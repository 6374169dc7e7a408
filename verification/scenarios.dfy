/** Short scripts whose outcome the interpreter's design fixes. */
module Scenarios {
  import opened Transforms
  import opened Session
  import opened Ops
  import opened Interpreter

  /** PUSH, MOVE, BOX, POP: the box is drawn through the moved frame, and
      afterwards the origin stack is exactly what it was before the PUSH. */
  lemma {:induction false} OffsetBoxThenRestore(s: State, d: Vec3, k: Option<Constants>, corner: Vec3, dims: Vec3, n: nat, i: nat)
    requires |s.stack| > 0 && s.polygons.Allocated?
    ensures var r := RunAt(s, [Push, Move(d), Box(k, corner, dims, n), Pop], i);
            && r.Ok?
            && r.value.stack == s.stack
            && |r.value.trace| == |s.trace| + 1
            && r.value.trace[|s.trace|].PolygonsDrawn?
            && r.value.trace[|s.trace|].geometry == BoxMesh(corner, dims)
            && r.value.trace[|s.trace|].transform == Mult(Top(s), Translation(d))
  {
    var ops := [Push, Move(d), Box(k, corner, dims, n), Pop];
    var s1 := PushOrigin(s);
    var s2 := Compose(s1, Translation(d));
    var s3 := DrawSolid(s2, i + 2, Box(k, corner, dims, n)).value;
    var s4 := PopOrigin(s3, i + 3).value;
    assert ops[1..] == [Move(d), Box(k, corner, dims, n), Pop];
    assert ops[1..][1..] == [Box(k, corner, dims, n), Pop];
    assert ops[1..][1..][1..] == [Pop];
    assert ops[1..][1..][1..][1..] == [];
    assert RunAt(s4, [], i + 4) == Ok(s4);
    assert RunAt(s3, [Pop], i + 3) == Ok(s4);
    assert RunAt(s2, [Box(k, corner, dims, n), Pop], i + 2) == Ok(s4);
    assert RunAt(s1, ops[1..], i + 1) == Ok(s4);
    assert s4.stack + [Top(s3)] == s3.stack == s2.stack;
    assert s2.stack[..|s.stack|] == s1.stack[..|s.stack|] == s.stack;
  }

  /** Two transforms in a row compose in order: the second multiplies the
      top the first left. */
  lemma {:induction false} TransformsAccumulate(s: State, a: Vec3, b: Vec3, i: nat)
    requires |s.stack| > 0
    ensures var r := RunAt(s, [Move(a), Scale(b)], i);
            && r.Ok?
            && |r.value.stack| == |s.stack|
            && Top(r.value) == Mult(Mult(Top(s), Translation(a)), Scaling(b))
  {
    var s1 := Compose(s, Translation(a));
    var s2 := Compose(s1, Scaling(b));
    assert [Move(a), Scale(b)][1..] == [Scale(b)];
    assert [Scale(b)][1..] == [];
    assert RunAt(s1, [Scale(b)], i + 1) == Ok(s2);
  }

  /** ROTATE about z, then LINE: the line is drawn through the rotated frame. */
  lemma {:induction false} RotatedLine(s: State, degrees: real, p0: Vec3, p1: Vec3, n: nat, i: nat)
    requires |s.stack| > 0 && s.edges.Allocated?
    ensures var r := RunAt(s, [Rotate(2, degrees), Line(p0, p1, n)], i);
            && r.Ok?
            && r.value.trace == s.trace + [LinesDrawn(EdgeMesh(p0, p1), Mult(Top(s), RotZ(FromDegrees(degrees))),
                                                      s.edges.lastcol, s.edges.lastcol + n, Color(0, 0, 0))]
  {
    var s1 := Compose(s, RotZ(FromDegrees(degrees)));
    var s2 := DrawLine(s1, i + 1, Line(p0, p1, n)).value;
    assert [Rotate(2, degrees), Line(p0, p1, n)][1..] == [Line(p0, p1, n)];
    assert [Line(p0, p1, n)][1..] == [];
    assert RunAt(s1, [Line(p0, p1, n)], i + 1) == Ok(s2);
  }

  /** LIGHT, SPHERE, LIGHT, SPHERE: each sphere is shaded with the light
      colour set just before it. */
  lemma {:induction false} LightChangesBetweenSpheres(s: State, c1: Vec3, c2: Vec3, centre: Vec3, radius: real, n: nat, i: nat)
    requires |s.stack| > 0 && s.polygons.Allocated?
    ensures var r := RunAt(s, [Light(c1), Sphere(None, centre, radius, n), Light(c2), Sphere(None, centre, radius, n)], i);
            && r.Ok?
            && |r.value.trace| == |s.trace| + 2
            && r.value.trace[|s.trace|].PolygonsDrawn?
            && r.value.trace[|s.trace|].light.color == c1
            && r.value.trace[|s.trace| + 1].PolygonsDrawn?
            && r.value.trace[|s.trace| + 1].light.color == c2
  {
    var sph := Sphere(None, centre, radius, n);
    var ops := [Light(c1), sph, Light(c2), sph];
    var s1 := SetLight(s, c1);
    var s2 := DrawSolid(s1, i + 1, sph).value;
    var s3 := SetLight(s2, c2);
    var s4 := DrawSolid(s3, i + 3, sph).value;
    assert ops[1..] == [sph, Light(c2), sph];
    assert ops[1..][1..] == [Light(c2), sph];
    assert ops[1..][1..][1..] == [sph];
    assert ops[1..][1..][1..][1..] == [];
    assert RunAt(s3, [sph], i + 3) == Ok(s4);
    assert RunAt(s2, [Light(c2), sph], i + 2) == Ok(s4);
    assert RunAt(s1, ops[1..], i + 1) == Ok(s4);
    assert s4.trace == s.trace + [s2.trace[|s.trace|], s4.trace[|s.trace| + 1]];
  }
}
