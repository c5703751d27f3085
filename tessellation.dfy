/**
 * The stroke tessellator contract of src/gpu/tessellate/GrStrokeTessellateOp.h:
 * the dynamic-state bit set, the path-stroke record, and a tessellator whose
 * `Prepare` must run before its `const` `Draw`.
 *
 * Skia's floating-point values (paths, stroke records, colors, matrices) are
 * opaque tokens here: only their identity matters to the batching logic, plus
 * the one fact the op reads from them: a path's verb count.
 */
module Tessellation {

  import opened Wrappers

  /** `SkPath`: geometry is not modelled, only how many verbs the path holds. */
  datatype Path = Path(geometry: int, verbCount: nat)

  /** `SkStrokeRec`: width, cap, join and miter limit, as one opaque token. */
  datatype StrokeRec = StrokeRec(style: int)

  /** `SkPMColor4f`: the premultiplied color, as one opaque token. */
  datatype Color = Color(rgba: int)

  /** `SkMatrix`: compared bit for bit, so an equality-comparable token. */
  datatype Matrix = Matrix(entries: int)

  /** `GrStrokeTessellator::PathStroke`. */
  datatype PathStroke = PathStroke(path: Path, stroke: StrokeRec, color: Color)

  // ---------------------------------------------------------------------------
  // ShaderFlags: the bit set of dynamic per-instance states.

  /** `GrStrokeTessellateShader::ShaderFlags`, a bit set. */
  type ShaderFlags = bv8

  const FlagBits: nat := 8

  /** `ShaderFlags::kNone`. */
  const NoFlags: ShaderFlags := 0

  /** Bit `i` of `flags` is set. */
  predicate HasFlag(flags: ShaderFlags, i: nat)
    requires i < FlagBits
  {
    flags & (1 << i) != 0
  }

  /**
   * Every state requested in `needed` is already enabled in `enabled`, stated
   * bit by bit and independently of the mask arithmetic the source uses.
   */
  predicate AllEnabled(needed: ShaderFlags, enabled: ShaderFlags)
  {
    forall i: nat :: i < FlagBits ==> HasFlag(needed, i) ==> HasFlag(enabled, i)
  }

  /** The source's mask test `~enabled & needed` is zero exactly when every needed bit is enabled. */
  lemma MaskTestMeansAllEnabled(needed: ShaderFlags, enabled: ShaderFlags)
    ensures (!enabled & needed == 0) <==> AllEnabled(needed, enabled)
  {
    if !enabled & needed == 0 {
      forall i: nat | i < FlagBits && HasFlag(needed, i)
        ensures HasFlag(enabled, i)
      {
      }
    } else {
      var missing := !enabled & needed;
      NonEmptyHasFlag(missing);
      var i: nat :| i < FlagBits && HasFlag(missing, i);
      assert HasFlag(needed, i) && !HasFlag(enabled, i);
    }
  }

  /** A non-empty bit set has some bit set. */
  lemma NonEmptyHasFlag(flags: ShaderFlags)
    requires flags != NoFlags
    ensures exists i: nat :: i < FlagBits && HasFlag(flags, i)
  {
    assert HasFlag(flags, 0) || HasFlag(flags, 1) || HasFlag(flags, 2) || HasFlag(flags, 3)
        || HasFlag(flags, 4) || HasFlag(flags, 5) || HasFlag(flags, 6) || HasFlag(flags, 7);
  }

  // ---------------------------------------------------------------------------
  // Path-stroke lists

  /** The sum of the verb counts of every path in `strokes`. */
  function TotalVerbCount(strokes: seq<PathStroke>): nat
  {
    if strokes == [] then 0 else strokes[0].path.verbCount + TotalVerbCount(strokes[1..])
  }

  /** Splicing two lists adds their verb counts. */
  lemma {:induction false} TotalVerbCountConcat(a: seq<PathStroke>, b: seq<PathStroke>)
    ensures TotalVerbCount(a + b) == TotalVerbCount(a) + TotalVerbCount(b)
  {
    if a != [] {
      assert (a + b)[1..] == a[1..] + b;
      TotalVerbCountConcat(a[1..], b);
    } else {
      assert a + b == b;
    }
  }

  // ---------------------------------------------------------------------------
  // The tessellator

  /** The two concrete tessellators the op chooses between. */
  datatype Strategy = HardwareTessellation | Indirect

  /** What `prepare` wrote into GPU buffers: the strokes under one transform. */
  datatype PreparedBuffers = PreparedBuffers(viewMatrix: Matrix, strokes: seq<PathStroke>, totalCombinedVerbCnt: nat)

  /** One draw call issued by `draw`, consuming the prepared buffers. */
  datatype DrawCall = DrawCall(strategy: Strategy, shaderFlags: ShaderFlags, buffers: PreparedBuffers)

  /** `GrStrokeTessellator`: prepares GPU data, then draws it. */
  class Tessellator {
    const shaderFlags: ShaderFlags
    const strategy: Strategy
    /** The GPU buffers; `None` until `Prepare` has run. */
    var buffers: Option<PreparedBuffers>

    constructor (strategy: Strategy, shaderFlags: ShaderFlags)
      ensures this.strategy == strategy && this.shaderFlags == shaderFlags
      ensures buffers == None
    {
      this.strategy := strategy;
      this.shaderFlags := shaderFlags;
      buffers := None;
    }

    /** Fills the buffers for `strokes` under `viewMatrix`; runs once, before `Draw`. */
    method Prepare(viewMatrix: Matrix, strokes: seq<PathStroke>, totalCombinedVerbCnt: nat)
      requires buffers == None
      modifies this`buffers
      ensures buffers == Some(PreparedBuffers(viewMatrix, strokes, totalCombinedVerbCnt))
    {
      buffers := Some(PreparedBuffers(viewMatrix, strokes, totalCombinedVerbCnt));
    }

    /**
     * Issues the draw call for the prepared buffers. It is `const`: no
     * `modifies` clause, so the tessellator is left as it was.
     */
    method Draw() returns (call: DrawCall)
      requires buffers != None
      ensures call.buffers == buffers.value
      ensures call.shaderFlags == shaderFlags && call.strategy == strategy
    {
      call := DrawCall(strategy, shaderFlags, buffers.value);
    }
  }
}
