# mdl interpreter — a Dafny model

This project models the command interpreter of an mdl (scene-description language) graphics
engine: the loop in `my_main()` that walks the compiled command array `op[0..lastop-1]` in
order and dispatches on each opcode. The interpreter carries this state from one command to
the next:

- an origin stack of coordinate-frame transforms (top = current frame);
- the session lighting values: the ambient colour, the point light's location and colour, and the view vector;
- the reflectance constants selected for the latest solid, plus the default "white" constants;
- the logical lengths (`lastcol`) of the two scratch geometry buffers, `polygons` and `edges`.

Every render, save and display request is recorded as an `Event` in a trace that is part of
the state. A draw event records:

- the geometry requested;
- the transform the buffer is multiplied by;
- the number of columns already in the buffer before the generator appended ("leftover");
- the number of columns in the buffer when it is drawn ("drawn"). This is the leftover plus
  the command's own `columns`, the count the external generator appends, carried as data of
  the command;
- the view, light, ambient colour and constants in force at that moment.

Files:

- `transforms.dfy` (module `Transforms`): `Transform` is a free term (`Identity`,
  `Translation`, `Scaling`, `RotX`/`RotY`/`RotZ` of a symbolic `Angle`, `Mult`). Equality
  between transforms is syntactic: two are equal exactly when they were built the same way.
  Every equality between transforms that the model proves therefore holds for any matrix
  library. An inequality between transforms, such as `Mult(t, Translation(Vec3(0.0, 0.0, 0.0))) != t`,
  is an artefact of the free term and says nothing about the numeric matrices.
- `session.dfy` (module `Session`): colours, light, constants, buffers, events, `State`,
  `Error`, `Result`, the initial values and `Initial`.
- `ops.dfy` (module `Ops`): the closed opcode set `Op`, including the unimplemented (WIP)
  opcodes (grouped as `Unimplemented(Placeholder)`) and `Unlisted` for an opcode the `switch` has no case for.
- `interpreter.dfy` (module `Interpreter`): one function per command family, `Step`, the fold
  `RunAt`/`Run` with what it keeps (`RunKeeps`), and the loop `Interpret`.
- `properties.dfy` (module `Properties`): claims about whole command sequences.
- `scenarios.dfy` (module `Scenarios`): short scripts with fixed outcomes.
- `findings.dfy` (module `Findings`): the buffers as written (see Findings).

How the code behaves at points worth noting:

- Composition order. The file's header comment (lines 17-20) says move/scale/rotate
  "multiply the current top of the origins stack" by the new matrix. The code calls
  `matrix_mult(peek(systems), tmp)` and copies `tmp` back to the top (lines 194, 201, 211).
  The model writes the new top as `Mult(oldTop, T)`, in that argument order.
- The bottom origin is not protected. A MOVE, SCALE or ROTATE at depth 1 replaces the only
  origin there is, and the model does the same.
- The resolved constants persist. The code stores them in `reflect`, and they stay there until
  the next solid. The model keeps that field. `Properties.ReflectNeverRead` proves that no
  command reads it before the next solid overwrites it.
- The scratch buffers are never allocated in this file (see Findings). `Session.Initial` is the
  corrected start-up, with both buffers allocated and empty. `Findings.InitialAsWritten` is the
  start-up as written.

Error handling:

- A POP at depth 1 and a ROTATE whose axis is not 0, 1 or 2 end the run with an `Err`. The error
  carries the command's index.
- The code for POP underflow is in `stack.c`, which is not part of this model.
- For a bad ROTATE axis, the source would multiply by a stale or freed `tmp`.

## Model

| member | source | states |
|---|---|---|
| Session.Initial | my_main.c:66-109 | The corrected start-up (see Findings): one origin (the identity), both buffers allocated and empty, the default constants selected, an empty trace. The default values are as the source sets them: ambient (50,50,50), light at (0.5,0.75,1) with colour (0,255,255), view (0,0,1). Each channel of the default constants has ambient 0.1, diffuse 0.5 and specular 0.5. |
| Findings.InitialAsWritten | my_main.c:56-109 | The start-up as written: the same as `Initial` except that neither scratch buffer is allocated. |
| Interpreter.Trunc | my_main.c:127-131 | Converting a script number to a colour channel truncates toward zero. For x ≥ 0 the result n satisfies n ≤ x < n+1. For x < 0 it satisfies n−1 < x ≤ n. |
| Interpreter.SetLight | my_main.c:120-126 | LIGHT sets the point light's colour to the command's colour. The light location and every other part of the state are unchanged. |
| Interpreter.SetAmbient | my_main.c:127-131 | AMBIENT sets the ambient colour to the command's colour, channel by channel truncated. Every other part of the state is unchanged. |
| Interpreter.DrawSolid | my_main.c:141-175 | SPHERE/TORUS/BOX fail only when the polygon buffer is unallocated. Otherwise the constants are the command's own if it names some, else the default ones. One draw is issued with the current top, view, light, ambient and those constants, of the old length plus the command's columns. The polygon buffer's logical length is then 0. Nothing else changes, and the defaults never do. |
| Interpreter.DrawLine | my_main.c:177-182 | LINE fails only when the edge buffer is unallocated. Otherwise it issues one line draw of the old length plus the command's columns, through the current top in colour (0,0,0). It then resets the edge buffer to length 0. The stack, lighting and everything else are unchanged. |
| Interpreter.Compose | my_main.c:192-214 | MOVE/SCALE/ROTATE replace the top with `Mult(old top, T)` and keep the depth. The entries below the top and all other state are unchanged. |
| Interpreter.PushOrigin | my_main.c:231-235 | PUSH adds one origin equal to the old top and keeps the entries below. Nothing else changes. |
| Interpreter.PopOrigin | my_main.c:236-240 | POP fails exactly when one origin is left, with StackUnderflow at the command's index. Otherwise it removes the top and nothing else changes. |
| Interpreter.Step | my_main.c:118-260 | Each command changes the depth by +1 (PUSH), −1 (POP) or 0 and leaves at least one origin. The WIP opcodes and opcodes without a case leave the state exactly as it was. |
| Interpreter.StepTransform | my_main.c:192-214 | Through `Step`, a MOVE, SCALE or ROTATE that succeeds keeps the depth and every entry below the top, and changes nothing but the stack. The new top is `Mult(old top, T)`. T is `Translation(offset)` for MOVE, `Scaling(factors)` for SCALE, and `RotX`/`RotY`/`RotZ` of the angle for ROTATE about axis 0/1/2. |
| Interpreter.StepKeeps | my_main.c:86-181 | No command changes the default ("white") constants, and a command that starts with both buffers empty leaves them empty. |
| Interpreter.StepFails | my_main.c:141-240 | A command fails exactly in these cases: POP at depth 1, a ROTATE axis outside 0..2, or a draw into an unallocated buffer. The error names the command's index and the kind of failure. |
| Interpreter.StepRequests | my_main.c:244-259 | SAVE adds exactly a save request for its file name. DISPLAY adds exactly a display request. Neither changes anything else. |
| Interpreter.StepTrace | my_main.c:141-259 | A command keeps the trace so far. It adds exactly one request when it is a draw, SAVE or DISPLAY, and none otherwise. |
| Interpreter.RunKeeps | my_main.c:112-263 | After a successful run the depth equals the initial depth + #PUSH − #POP and is ≥ 1. The default constants are unchanged. The trace keeps its old entries and grows by one per draw/save/display. Empty buffers stay empty. A failure names the index of a command inside the run. |
| Interpreter.RunAt | my_main.c:112-263 | The fold of `Step` over the commands, numbered on from a start index, stopping at the first failure. A successful run leaves at least one origin. |
| Interpreter.Run | my_main.c:112-263 | A whole script from `Initial`. If it succeeds, the depth is 1 + #PUSH − #POP, the defaults are still the white constants, both buffers are empty, and the trace holds one request per draw/save/display. A failure names the index of one of its commands. |
| Interpreter.Interpret | my_main.c:112-263 | The `for` loop over indices 0..lastop−1 computes exactly the fold `Run`. |
| Properties.RunAppend | my_main.c:112-118 | Running a+b is running a, then running b (numbered on) on the state a left. A failure in a ends the run. |
| Properties.RunSnoc | my_main.c:112-118 | Command i is dispatched exactly once, with index i, on the state commands 0..i−1 left. |
| Properties.PushPopRestores | my_main.c:231-240 | PUSH then POP returns exactly the state before the PUSH. |
| Properties.LightingLastWriterWins | my_main.c:120-131 | Of two LIGHT (or two AMBIENT) commands in a row, only the second one's colour survives. The pair acts like the second command alone. |
| Properties.NoUnderflow | my_main.c:231-240 | In a successful run, every prefix keeps initial depth + #PUSH − #POP ≥ 1. |
| Properties.DrawsSeeEmptyBuffers | my_main.c:147-181 | In a successful run that starts with empty buffers, every draw the run adds finds its buffer logically empty. So each draw renders only the columns its own command generated. This rests on the resets at lines 150, 162, 174 and 181. |
| Properties.ScriptDrawsSeeEmptyBuffers | my_main.c:147-181 | No draw of a successful script ever renders leftover geometry. |
| Properties.ReflectNeverRead | my_main.c:141-175 | Take two states that differ only in the selected constants. Runs from them agree on failure, the error, the trace and every other part of the state. So resolution of the constants does not depend on the state. |
| Properties.IndexOnlyLabels | my_main.c:112-118 | Whether a run succeeds, and its final state, do not depend on the index numbering starts from. |
| Properties.WipSkipped | my_main.c:133-256 | An unimplemented opcode only uses up its index. |
| Properties.WithWip | my_main.c:133-256 | Running a, an unimplemented opcode, then b equals running a and then b, numbered from one past a. |
| Properties.WipTransparent | my_main.c:133-256 | Inserting an unimplemented opcode anywhere in a script changes neither its success nor its final state. |
| Properties.AllocatedRunsNeverLackBuffers | my_main.c:147-181 | Start with both buffers allocated, whatever their lengths. Then the only possible failures are stack underflow and a bad ROTATE axis. |
| Scenarios.OffsetBoxThenRestore | my_main.c:165-240 | PUSH, MOVE(d), BOX, POP draws the box through `Mult(top, Translation(d))` and then restores the stack exactly. |
| Scenarios.TransformsAccumulate | my_main.c:192-204 | MOVE(a) then SCALE(b) leaves top `Mult(Mult(top, Translation(a)), Scaling(b))` at the same depth. |
| Scenarios.RotatedLine | my_main.c:177-214 | ROTATE about z then LINE draws the line through `Mult(top, RotZ(degrees))`. |
| Scenarios.LightChangesBetweenSpheres | my_main.c:120-151 | In LIGHT c1, SPHERE, LIGHT c2, SPHERE, the first sphere is shaded with colour c1 and the second with c2. |
| Findings.AsWrittenFirstDrawFails | my_main.c:56-57 | As written, take any script whose first draw (SPHERE/TORUS/BOX/LINE) is at index n, after commands that succeed. That script fails at index n with no allocated buffer. |
| Findings.DrawFreeKeepsUnallocated | my_main.c:112-263 | Commands that draw nothing never allocate a buffer. |
| Findings.ScriptsNeverLackBuffers | my_main.c:56-57 | With the buffers allocated at start-up, a script fails only by stack underflow or a bad ROTATE axis. |

## Left out

- Matrix arithmetic (`make_translate`, `make_scale`, `make_rot*`, `matrix_mult`, `copy_matrix`): floating point, in `matrix.h`, which is not part of this model. Transforms are symbolic terms.
- The claims that MOVE(0,0,0) leaves the top unchanged and that two translations equal one summed translation. These are facts about the numeric matrix library. In the free term they are false: `Mult(t, Translation(Vec3(0.0, 0.0, 0.0)))` is a different term from `t`. This is an artefact of the symbolic transforms, not a claim about the source.
- Degree-to-radian conversion (line 207): floating point, kept as the symbolic `FromDegrees`. The source writes the converted value back into `op[i]`; model commands are immutable.
- Geometry generation (`add_sphere`, `add_torus`, `add_box`, `add_edge`), the product of the buffer with the top, rasterisation (`draw_polygons`, `draw_lines`) and z-buffering: numeric, external. They appear only as trace events.
- Buffer capacity and growth: any growth logic lives in code that is not part of this model. Only the logical length is kept. The number of columns a generator appends is not computed from the geometry. It is carried as the `columns` field of each drawing command.
- `save_extension`, `display`, `print_symtab`, the `printf` diagnostics, `clear_screen`, `clear_zbuffer`: I/O. Save and display appear as trace events only.
- Memory management (`new_stack`, `new_matrix`, `free_matrix`, the leak of the `tmp` allocated at line 104): not behaviour of the language.
- The lexer, parser and symbol table that produce `op[]`. A material reference is modelled as an optional constants value.
- Interpreter.Filled: a generator's append (`add_sphere`, `add_torus`, `add_box`, `add_edge` at lines 147, 159, 171 and 178) is abstracted as adding the command's `columns` to the buffer's `lastcol`. `Filled` is that assumption, not a property of the source, so it carries no contract.
- Rotate: assumes the ROTATE axis field (declared in `parser.h`, which is not part of this model) is an integer. If it is a floating-point value, a non-integral axis cannot be written as an `Op`. Such an axis would fall into the same "not 0, 1 or 2" error.
- Interpreter.Trunc: assumes the colour channels of `color` (declared in `ml6.h`, which is not part of this model) are C `int`s. Values outside the `int` range, which are undefined behaviour in C, are not modelled.

## Findings

| source | as written | input that shows it | evidently intended | confidence | as-written member | corrected member |
|---|---|---|---|---|---|---|
| my_main.c:56-57 | `polygons` and `edges` are declared but never allocated. The first `add_sphere`/`add_torus`/`add_box`/`add_edge` writes through an uninitialised pointer. | any script containing SPHERE, TORUS, BOX or LINE, e.g. `[Push, Move(d), Sphere(None, c, r, n)]` fails at index 2 | both buffers allocated before the loop, like `tmp` at line 104 | high; not executed | Findings.InitialAsWritten, Findings.AsWrittenFirstDrawFails | Findings.ScriptsNeverLackBuffers |
