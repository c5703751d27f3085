# Stroke tessellation op and DSL expression holder, in Dafny

This project models two small pieces of Skia:

- **`GrStrokeTessellateOp`** is the draw op that turns stroked paths into tessellated GPU geometry. The model covers its state record, its two decision queries and its lifecycle. The state record holds the AA type, the view matrix, the dynamic-state `ShaderFlags`, the path-stroke list, the combined verb count, the processors, the stencil requirement, the tessellator and the two programs. The two queries are `shouldUseDynamicStates` and `canUseHardwareTessellation`. The lifecycle runs Created → PrePrepared → Prepared → Executed, and merging with a sibling op happens in the first phase. The model also covers the contract of `GrStrokeTessellator`: `prepare` runs once before `draw`, `draw` is `const`, and the flags are fixed at construction.
- **`SkSL::dsl::DSLExpression`** is a move-only holder of an optional expression. `hasValue()` means the held pointer is not null. A holder is empty when default-constructed or after a release. Built from a null expression, it holds Poison: a value, but not a valid one.

Modules:

- `Wrappers` (`wrappers.dfy`): `Option`, which stands for a nullable pointer.
- `Tessellation` (`tessellation.dfy`): opaque tokens for Skia's floating-point types, `PathStroke`, `ShaderFlags` as an 8-bit set, the verb-count sum, and the `Tessellator` class.
- `StrokeOp` (`stroke_op.dfy`): the `StrokeTessellateOp` class. Its object invariant `Valid()` ties the fields together. Examples: the processors are moved out exactly when the fill program and the tessellator exist; a hardware tessellator never gets processors that use varying coords; the prepared buffers hold exactly the op's strokes.
- `DSL` (`dsl_expression.dfy`): the `DSLExpression` class. Expressions are objects. Each records, as ghost state, the one holder that owns it, so exclusive ownership is an invariant (`Valid()`).

The source header shows only declarations for the op's constructor, `onCombineIfPossible`, `prePrepareTessellator`, `onPrepare` and `onExecute`. Their bodies live in a `.cpp` file that is not part of this model. They are modelled at the level of the op's fields:

- The model's merge rule: combining requires the same AA type, view matrix and processors. It splices the lists, ORs the flags, adds the verb counts and ORs the stencil requirement.
- The stencil requirement starts `false`, as the field's initialiser says. `SetNeedsStencil` sets it. It stands for an unseen step, whose body is not in the header, that runs on a single-stroke op before any merge.
- Hardware tessellation is chosen only when `canUseHardwareTessellation` allows it. Any further preference is a parameter.

## Model

| member | source | states |
|---|---|---|
| `Tessellation.MaskTestMeansAllEnabled` | src/gpu/tessellate/GrStrokeTessellateOp.h:69-70 | The mask `~flags & needed` is zero exactly when every bit of `needed` is also set in `flags`. This is checked bit by bit, against a definition independent of the mask. |
| `Tessellation.TotalVerbCountConcat` | src/gpu/tessellate/GrStrokeTessellateOp.h:102-103 | Splicing two stroke lists adds their verb counts, so the combined verb count stays the sum over the list. |
| `Tessellation.Tessellator.constructor` | src/gpu/tessellate/GrStrokeTessellateOp.h:20-46 | A tessellator's flags (and strategy) are fixed at construction (`const`), and it starts with no prepared buffers. |
| `Tessellation.Tessellator.Prepare` | src/gpu/tessellate/GrStrokeTessellateOp.h:34-36 | Runs only while nothing is prepared; afterwards the buffers hold exactly the given strokes, matrix and verb count. |
| `Tessellation.Tessellator.Draw` | src/gpu/tessellate/GrStrokeTessellateOp.h:38-40 | Requires prepared buffers; modifies nothing (`const`); the draw call consumes exactly those buffers with the construction-time flags and strategy. |
| `StrokeOp.StrokeTessellateOp.constructor` | src/gpu/tessellate/GrStrokeTessellateOp.h:99-109 | A fresh op keeps the given AA type and view matrix (both `const`). Its flags are `kNone`. Its tessellator and both programs are null, and it owns the paint's processors. Its list holds the one stroke it was built for, and its verb count is that path's (the header's 0 plus this path). It does not need a stencil yet. |
| `StrokeOp.StrokeTessellateOp.SetNeedsStencil` | src/gpu/tessellate/GrStrokeTessellateOp.h:105 | Sets `fNeedsStencil` on a fresh single-stroke op and changes nothing else; the invariant holds. |
| `StrokeOp.StrokeTessellateOp.HeadStroke` | src/gpu/tessellate/GrStrokeTessellateOp.h:59 | `headStroke()` reads the first entry's stroke; the entry is its path, this stroke and its color. |
| `StrokeOp.StrokeTessellateOp.HeadColor` | src/gpu/tessellate/GrStrokeTessellateOp.h:60 | `headColor()` reads the first entry's color; the entry is its path, its stroke and this color. |
| `StrokeOp.StrokeTessellateOp.SetHeadStroke` | src/gpu/tessellate/GrStrokeTessellateOp.h:59 | A write through `headStroke()` changes only the first entry's stroke; afterwards `HeadStroke()` reads it back and the invariant holds. |
| `StrokeOp.StrokeTessellateOp.SetHeadColor` | src/gpu/tessellate/GrStrokeTessellateOp.h:60 | A write through `headColor()` changes only the first entry's color; afterwards `HeadColor()` reads it back. |
| `StrokeOp.TotalVerbCountHeadEdit` | src/gpu/tessellate/GrStrokeTessellateOp.h:59-60 | Editing the head entry without changing its path leaves the verb-count sum unchanged. |
| `StrokeOp.StrokeTessellateOp.ShouldUseDynamicStates` | src/gpu/tessellate/GrStrokeTessellateOp.h:62-72 | True whenever every needed state is already enabled, whatever the verb count. True whenever the verb count is at most 50, whatever the flags. False exactly when some needed bit is missing and the count exceeds 50. Being a function, it leaves every field unchanged. |
| `StrokeOp.StrokeTessellateOp.CanUseHardwareTessellation` | src/gpu/tessellate/GrStrokeTessellateOp.h:74-79 | Callable only while both programs are null, so the processors have not been moved. False without tessellation support. False when the processors use varying coords. True otherwise. |
| `StrokeOp.StrokeTessellateOp.CombineIfPossible` | src/gpu/tessellate/GrStrokeTessellateOp.h:86 | Merges exactly when the AA type, view matrix and processors are equal. On a merge: the list is this op's list followed by the other's; the flags are the union; the verb counts add; the stencil requirement is the OR. The other op is left with an empty list. On a refusal, neither op changes. |
| `StrokeOp.CombineTwoSingleStrokeOps` | src/gpu/tessellate/GrStrokeTessellateOp.h:101-103 | Two fresh ops of 10 and 5 verbs merge into one op of 2 strokes and 15 verbs, with no flags. Only the second needs a stencil, and the merged op does. |
| `StrokeOp.StrokeTessellateOp.PrePrepareTessellator` | src/gpu/tessellate/GrStrokeTessellateOp.h:88-89 | Builds one tessellator with the op's flags. It is a hardware one only if `canUseHardwareTessellation` held before the processors moved. The fill program takes the processors, which become null. A stencil program exists exactly when the op needs a stencil. The strokes, flags, count and stencil requirement are unchanged. |
| `StrokeOp.StrokeTessellateOp.OnPrepare` | src/gpu/tessellate/GrStrokeTessellateOp.h:95 | If pre-preparation was skipped, it builds what pre-preparation would have built. The tessellator is a hardware one only with tessellation support, no varying coords and a preference for hardware. The fill program takes the processors, and a stencil program exists exactly when the op needs a stencil. Otherwise the tessellator, both programs and the processors stay as they were. Then it prepares the tessellator with the op's view matrix, its whole stroke list and its verb-count sum. |
| `StrokeOp.StrokeTessellateOp.OnExecute` | src/gpu/tessellate/GrStrokeTessellateOp.h:97 | Runs only after prepare. Binds the stencil program and draws if the op needs a stencil, then binds the fill program and draws. Every draw follows a pipeline bind, and the op ends Executed. |
| `DSL.DSLExpression.Empty` | src/sksl/dsl/DSLExpression.h:41 | A default-constructed holder has no value. |
| `DSL.ExclusiveOwnership` | src/sksl/dsl/DSLExpression.h:37-39 | Two valid holders that hold the same expression are the same holder: with copying deleted, ownership is exclusive. |
| `DSL.DSLExpression.FromVariable` | src/sksl/dsl/DSLExpression.h:43-48 | Holds a new, valid reference to the given variable, and owns it. |
| `DSL.DSLExpression.FromExpression` | src/sksl/dsl/DSLExpression.h:50-51 | Takes over an expression no holder owns. A null expression yields a new Poison: the holder has a value but is not valid. A non-null expression is held as given. |
| `DSL.MakePoison` | src/sksl/dsl/DSLExpression.h:53 | `Poison(pos)` returns a new holder of a new Poison expression: it has a value that is not valid. |
| `DSL.DSLExpression.Move` | src/sksl/dsl/DSLExpression.h:37-39 | The moved-to holder takes the expression and becomes its owner; the moved-from holder is left without a value. |
| `DSL.DSLExpression.HasValue` | src/sksl/dsl/DSLExpression.h:70-77 | `hasValue()` is true exactly when the held pointer is not null. A holder of Poison has a value. |
| `DSL.DSLExpression.IsValid` | src/sksl/dsl/DSLExpression.h:79-82 | A valid holder has a value, and that value is not Poison. |
| `DSL.DSLExpression.Release` | src/sksl/dsl/DSLExpression.h:86-93 | Requires a value; returns exactly the held expression, now owned by no holder, and leaves the holder without a value. |
| `DSL.DSLExpression.ReleaseIfPossible` | src/sksl/dsl/DSLExpression.h:95-100 | Never fails. Returns the held expression, now owned by no holder, or null if there was none. Afterwards the holder has no value. |
| `DSL.DSLExpression.Swap` | src/sksl/dsl/DSLExpression.h:84 | The two holders exchange their expressions, and each becomes the owner of the one it now holds. |

## Left out

- Stroke subdivision, GPU buffer allocation and draw-call emission are foreign. The tessellator records the strokes, matrix and verb count it prepared. A draw call is a value naming those buffers.
- Buffer allocation failure is not modelled. On such a failure the op would skip its draw for the frame.
- `StrokeOp.StrokeTessellateOp.CombineIfPossible` does not model the head-stroke and head-color comparisons. Those comparisons decide which dynamic states a merge needs and refuse a merge that `shouldUseDynamicStates` rejects. That logic is in the `.cpp` file, which is not part of this model. The model merges on equal AA type, view matrix and processors.
- `StrokeOp.StrokeTessellateOp.constructor` starts with flags `kNone` and no stencil requirement, the header's initial values. The rule that decides `fNeedsStencil` is in code not shown in the header, so it is not modelled; `SetNeedsStencil` takes its outcome as a parameter. A wide-color flag that the constructor may set is not modelled either.
- `onPrePrepare` is modelled by `PrePrepareTessellator`, which it calls. Recording program infos with the recording context, and running on a worker thread, are not modelled. The lifecycle is sequential.
- `name`, `visitProxies`, `fixedFunctionFlags` and `finalize` are reporting or analysis overrides; they are left out.
- `GrCaps`, `GrProcessorSet`, `GrProgramInfo`, `GrAAType`, `SkPath`, `SkStrokeRec`, `SkPMColor4f` and `SkMatrix` are tokens. Each keeps only what the op reads: tessellation support, varying-coord use, and verb count.
- `GrSTArenaList` is a sequence. Arena allocation and the O(1) splice are not modelled.
- `StrokeOp.StrokeTessellateOp.CombineIfPossible` uses an unbounded verb count. The source's `int` could overflow; that is not modelled.
- `ShaderFlags` is an 8-bit set. The enumerators of `GrStrokeTessellateShader::ShaderFlags` are not part of this model.
- For `DSLExpression`, these are left out because their bodies are not in the header: `type()`, `description()`, `position()`, `setPosition()`, `assign()` and the destructor. The same goes for the body of `isValid()`, which is specified from its doc comment. The deleted copy constructor has no counterpart: the model has no copy operation. Ownership by a holder is exclusive (`Valid()`). An expression owned by no holder is one held by a bare `unique_ptr`, and the model does not prevent two such pointers to the same expression. `sk_is_trivially_relocatable` and `SK_CLANG_REINITIALIZES` are compile-time only.
- `DSL.DSLExpression.FromVariable`, `DSL.DSLExpression.FromExpression` and `DSL.MakePoison` take the position explicitly. The source's default argument `Position pos = {}` is not modelled.
