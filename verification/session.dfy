/** The session state the interpreter carries from one command to the next:
    the origin stack, the lighting values, the reflectance constants and the
    logical lengths of the two scratch geometry buffers, plus the trace of
    render, save and display requests issued so far.
 */
module Session {
  import opened Transforms

  datatype Option<T> = None | Some(value: T)

  /** A frame-buffer colour with integer channels. */
  datatype Color = Color(red: int, green: int, blue: int)

  /** The point light: where it is and what colour it shines. */
  datatype PointLight = PointLight(location: Vec3, color: Vec3)

  /** Ambient, diffuse and specular reflection coefficients of one channel. */
  datatype Coeffs = Coeffs(ambient: real, diffuse: real, specular: real)

  /** Reflectance constants of a material, per colour channel. */
  datatype Constants = Constants(r: Coeffs, g: Coeffs, b: Coeffs)

  /** A scratch geometry buffer, by its logical length (`lastcol`) only.
      `Unallocated` stands for a buffer pointer that was never set up. */
  datatype Buffer = Unallocated | Allocated(lastcol: nat)

  /** Local-space geometry requested from a generator, by its parameters. */
  datatype Geometry =
    | SphereMesh(center: Vec3, radius: real, step: real)
    | TorusMesh(center: Vec3, r0: real, r1: real, step: real)
    | BoxMesh(corner: Vec3, dims: Vec3)
    | EdgeMesh(p0: Vec3, p1: Vec3)

  /** One request to an external collaborator. A draw records the geometry
      generated, the transform the buffer was multiplied by, the number of
      columns already in the buffer before the generator appended
      (`leftover`), the number of columns actually drawn (`drawn`, the
      buffer's logical length at the draw) and the shading inputs in force. */
  datatype Event =
    | PolygonsDrawn(geometry: Geometry, transform: Transform, leftover: nat, drawn: nat,
                    view: Vec3, light: PointLight, ambient: Color, reflect: Constants)
    | LinesDrawn(geometry: Geometry, transform: Transform, leftover: nat, drawn: nat, color: Color)
    | Saved(name: string)
    | Displayed

  datatype State = State(
    stack: seq<Transform>,  // the origin stack, top last
    ambient: Color,
    light: PointLight,
    view: Vec3,
    reflect: Constants,     // constants selected for the latest primitive
    white: Constants,       // the default constants
    polygons: Buffer,
    edges: Buffer,
    trace: seq<Event>)

  /** Failures, each with the index of the offending command. */
  datatype Error =
    | StackUnderflow(index: nat)
    | BadAxis(index: nat, axis: int)
    | UnallocatedBuffer(index: nat)

  datatype Result<T> = Ok(value: T) | Err(error: Error)

  const DefaultAmbient := Color(50, 50, 50)
  const DefaultLight := PointLight(Vec3(0.5, 0.75, 1.0), Vec3(0.0, 255.0, 255.0))
  const DefaultView := Vec3(0.0, 0.0, 1.0)
  /** The default ("white") reflectance constants. */
  const White := Constants(Coeffs(0.1, 0.5, 0.5), Coeffs(0.1, 0.5, 0.5), Coeffs(0.1, 0.5, 0.5))
  /** The flat colour lines are drawn in. */
  const LineColor := Color(0, 0, 0)
  /** Sampling resolution handed to the sphere and torus generators. */
  const Step3d: real := 20.0

  function Top(s: State): Transform
    requires |s.stack| > 0
  {
    s.stack[|s.stack| - 1]
  }

  /** Both scratch buffers exist and are logically empty. */
  predicate Idle(s: State) {
    s.polygons == Allocated(0) && s.edges == Allocated(0)
  }

  /** The state before the first command: one origin (the identity), the
      default lighting, the default constants selected, empty buffers. */
  function Initial(): (s: State)
    ensures s.stack == [Identity] && Idle(s) && s.trace == []
    ensures s.ambient == Color(50, 50, 50)
    ensures s.light == PointLight(Vec3(0.5, 0.75, 1.0), Vec3(0.0, 255.0, 255.0))
    ensures s.view == Vec3(0.0, 0.0, 1.0)
    ensures s.reflect == s.white && s.white.r == s.white.g == s.white.b == Coeffs(0.1, 0.5, 0.5)
  {
    State([Identity], DefaultAmbient, DefaultLight, DefaultView, White, White,
          Allocated(0), Allocated(0), [])
  }
}
