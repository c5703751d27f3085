/**
 * `GrStrokeTessellateOp` of src/gpu/tessellate/GrStrokeTessellateOp.h: a
 * batchable stroke draw that owns a list of path-strokes, decides whether
 * dynamic states are worth enabling and whether hardware tessellation may be
 * used, merges with compatible siblings, and then moves through
 * Created -> PrePrepared -> Prepared -> Executed.
 *
 * The GPU-side collaborators (caps, processors, program infos) are reduced to
 * the facts the op reads from them.
 */
module StrokeOp {

  import opened Wrappers
  import opened Tessellation

  /** `GrAAType`: the op only compares it for equality. */
  datatype AAType = AAType(mode: int)

  /** `GrProcessorSet`: an identity, and whether the effects read varying coords. */
  datatype ProcessorSet = ProcessorSet(effects: int, usesVaryingCoords: bool)

  /** `GrPaint`: the color and the processors it hands to the op. */
  datatype Paint = Paint(color: Color, processors: ProcessorSet)

  /** `GrCaps`, reduced to `shaderCaps()->tessellationSupport()`. */
  datatype Caps = Caps(tessellationSupport: bool)

  /**
   * `GrProgramInfo`: the stencil program, or the fill program, which takes
   * ownership of the op's processors.
   */
  datatype ProgramInfo =
    | StencilProgram(shaderFlags: ShaderFlags)
    | FillProgram(shaderFlags: ShaderFlags, processors: ProcessorSet)

  /** `GrOp::CombineResult`, as far as this op uses it. */
  datatype CombineResult = Merged | CannotCombine

  datatype Phase = Created | PrePrepared | Prepared | Executed

  /** One command the op records into the flush state while executing. */
  datatype Command = BindPipeline(program: ProgramInfo) | Draw(call: DrawCall)

  /**
   * The tessellator never binds a pipeline itself, so every draw must come
   * right after the op bound one.
   */
  ghost predicate PipelineBoundBeforeEachDraw(commands: seq<Command>)
  {
    forall i :: 0 <= i < |commands| && commands[i].Draw? ==> 0 < i && commands[i - 1].BindPipeline?
  }

  /** `kMaxVerbsToEnableDynamicState`. */
  const MaxVerbsToEnableDynamicState: nat := 50

  class StrokeTessellateOp {
    const aaType: AAType
    const viewMatrix: Matrix
    var shaderFlags: ShaderFlags
    var pathStrokeList: seq<PathStroke>
    var totalCombinedVerbCnt: nat
    /** `fProcessors`; `None` once it has been moved into the fill program. */
    var processors: Option<ProcessorSet>
    var needsStencil: bool
    var tessellator: Tessellator?
    var stencilProgram: Option<ProgramInfo>
    var fillProgram: Option<ProgramInfo>

    /** This op's strokes were spliced into another op; it is only discarded now. */
    ghost var mergedAway: bool
    /** `onExecute` has run; the op is never replayed. */
    ghost var executed: bool

    ghost predicate Valid()
      reads this, tessellator
    {
      && (mergedAway ==> pathStrokeList == [] && fillProgram == None)
      && (!mergedAway ==> pathStrokeList != [] && totalCombinedVerbCnt == TotalVerbCount(pathStrokeList))
      // The processors are moved out exactly when the programs and the tessellator are built.
      && (fillProgram == None <==> processors != None)
      && (fillProgram == None <==> tessellator == null)
      && (fillProgram == None ==> stencilProgram == None && !executed)
      && (tessellator != null ==>
            && fillProgram.value.FillProgram?
            && fillProgram.value.shaderFlags == shaderFlags
            && (stencilProgram != None <==> needsStencil)
            && (stencilProgram != None ==> stencilProgram.value == StencilProgram(shaderFlags))
            && tessellator.shaderFlags == shaderFlags
            // Hardware tessellation cannot pass varyings to the fragment shader.
            && (tessellator.strategy == HardwareTessellation ==> !fillProgram.value.processors.usesVaryingCoords)
            && (tessellator.buffers != None ==>
                  tessellator.buffers.value == PreparedBuffers(viewMatrix, pathStrokeList, totalCombinedVerbCnt))
            && (executed ==> tessellator.buffers != None))
    }

    ghost function Phase(): Phase
      reads this, tessellator
    {
      if tessellator == null then Created
      else if tessellator.buffers == None then PrePrepared
      else if !executed then Prepared
      else Executed
    }

    /**
     * A fresh op holds the one stroke it was created for, with no dynamic
     * state, no stencil requirement and nothing built.
     */
    constructor (aaType: AAType, viewMatrix: Matrix, path: Path, stroke: StrokeRec, paint: Paint)
      ensures Valid() && Phase() == Created && !mergedAway
      ensures this.aaType == aaType && this.viewMatrix == viewMatrix
      ensures pathStrokeList == [PathStroke(path, stroke, paint.color)]
      ensures totalCombinedVerbCnt == path.verbCount
      ensures shaderFlags == NoFlags
      ensures processors == Some(paint.processors)
      ensures !needsStencil
      ensures tessellator == null && stencilProgram == None && fillProgram == None
    {
      this.aaType := aaType;
      this.viewMatrix := viewMatrix;
      shaderFlags := NoFlags;
      pathStrokeList := [PathStroke(path, stroke, paint.color)];
      totalCombinedVerbCnt := path.verbCount;
      processors := Some(paint.processors);
      needsStencil := false;
      tessellator := null;
      stencilProgram := None;
      fillProgram := None;
      mergedAway := false;
      executed := false;
    }

    /**
     * Sets `fNeedsStencil`: an unseen step, whose body is not in the header,
     * that runs on a single-stroke op before any merge and decides whether the
     * stroke needs a stencil pass.
     */
    method SetNeedsStencil(b: bool)
      requires Valid() && !mergedAway && Phase() == Created && |pathStrokeList| == 1
      modifies this`needsStencil
      ensures Valid() && Phase() == Created
      ensures needsStencil == b
    {
      needsStencil := b;
    }

    /** `headStroke()`, read side: the first entry's stroke. */
    function HeadStroke(): (s: StrokeRec)
      reads this
      requires pathStrokeList != []
      ensures pathStrokeList[0] == PathStroke(pathStrokeList[0].path, s, pathStrokeList[0].color)
    {
      pathStrokeList[0].stroke
    }

    /** `headColor()`, read side: the first entry's color. */
    function HeadColor(): (c: Color)
      reads this
      requires pathStrokeList != []
      ensures pathStrokeList[0] == PathStroke(pathStrokeList[0].path, pathStrokeList[0].stroke, c)
    {
      pathStrokeList[0].color
    }

    /** A write through the reference `headStroke()` returns: only the first entry's stroke changes. */
    method SetHeadStroke(stroke: StrokeRec)
      requires Valid() && !mergedAway && Phase() == Created
      modifies this`pathStrokeList
      ensures Valid() && Phase() == Created
      ensures HeadStroke() == stroke
      ensures pathStrokeList == old(pathStrokeList)[0 := old(pathStrokeList)[0].(stroke := stroke)]
    {
      TotalVerbCountHeadEdit(pathStrokeList, pathStrokeList[0].(stroke := stroke));
      pathStrokeList := pathStrokeList[0 := pathStrokeList[0].(stroke := stroke)];
    }

    /** A write through the reference `headColor()` returns: only the first entry's color changes. */
    method SetHeadColor(color: Color)
      requires Valid() && !mergedAway && Phase() == Created
      modifies this`pathStrokeList
      ensures Valid() && Phase() == Created
      ensures HeadColor() == color
      ensures pathStrokeList == old(pathStrokeList)[0 := old(pathStrokeList)[0].(color := color)]
    {
      TotalVerbCountHeadEdit(pathStrokeList, pathStrokeList[0].(color := color));
      pathStrokeList := pathStrokeList[0 := pathStrokeList[0].(color := color)];
    }

    /**
     * `shouldUseDynamicStates`: a `const` query (a function, so it cannot
     * change the op). Dynamic states are worth it when they are all enabled
     * already, or when the op has few verbs.
     */
    function ShouldUseDynamicStates(neededDynamicStates: ShaderFlags): (r: bool)
      reads this
      ensures AllEnabled(neededDynamicStates, shaderFlags) ==> r
      ensures totalCombinedVerbCnt <= MaxVerbsToEnableDynamicState ==> r
      ensures !r <==> !AllEnabled(neededDynamicStates, shaderFlags) && totalCombinedVerbCnt > MaxVerbsToEnableDynamicState
    {
      MaskTestMeansAllEnabled(neededDynamicStates, shaderFlags);
      var anyStateDisabled := !shaderFlags & neededDynamicStates != NoFlags;
      var allStatesEnabled := !anyStateDisabled;
      allStatesEnabled || totalCombinedVerbCnt <= MaxVerbsToEnableDynamicState
    }

    /**
     * `canUseHardwareTessellation`: only askable while the processors are
     * still ours, i.e. before either program is built.
     */
    function CanUseHardwareTessellation(caps: Caps): (r: bool)
      reads this, tessellator
      requires Valid()
      requires stencilProgram == None && fillProgram == None
      ensures processors != None
      ensures !caps.tessellationSupport ==> !r
      ensures processors.value.usesVaryingCoords ==> !r
      ensures caps.tessellationSupport && !processors.value.usesVaryingCoords ==> r
    {
      caps.tessellationSupport && !processors.value.usesVaryingCoords
    }

    /**
     * `onCombineIfPossible`: merges `other` into this op when both draw with
     * the same AA type, view matrix and processors. The strokes are spliced,
     * the flags and the stencil requirement are united, the verb counts add.
     */
    method CombineIfPossible(other: StrokeTessellateOp) returns (result: CombineResult)
      requires other != this
      requires Valid() && !mergedAway && Phase() == Created
      requires other.Valid() && !other.mergedAway && other.Phase() == Created
      modifies this, other
      ensures Valid() && !mergedAway && Phase() == Created
      ensures other.Valid() && other.Phase() == Created
      ensures result == Merged <==>
                old(aaType == other.aaType && viewMatrix == other.viewMatrix && processors == other.processors)
      ensures result == CannotCombine ==> unchanged(this) && unchanged(other)
      ensures result == Merged ==>
                && pathStrokeList == old(pathStrokeList) + old(other.pathStrokeList)
                && shaderFlags == old(shaderFlags) | old(other.shaderFlags)
                && totalCombinedVerbCnt == old(totalCombinedVerbCnt) + old(other.totalCombinedVerbCnt)
                && needsStencil == (old(needsStencil) || old(other.needsStencil))
                && processors == old(processors)
                && unchanged(this`executed)
      ensures result == Merged ==>
                && other.pathStrokeList == [] && other.mergedAway
                && unchanged(other`shaderFlags, other`totalCombinedVerbCnt, other`processors, other`needsStencil)
                && unchanged(other`executed)
    {
      if aaType != other.aaType || viewMatrix != other.viewMatrix || processors != other.processors {
        return CannotCombine;
      }
      TotalVerbCountConcat(pathStrokeList, other.pathStrokeList);
      shaderFlags := shaderFlags | other.shaderFlags;
      pathStrokeList := pathStrokeList + other.pathStrokeList;
      other.pathStrokeList := [];
      other.mergedAway := true;
      totalCombinedVerbCnt := totalCombinedVerbCnt + other.totalCombinedVerbCnt;
      needsStencil := needsStencil || other.needsStencil;
      result := Merged;
    }

    /**
     * `prePrepareTessellator`: builds the one tessellator, the fill program
     * (which takes the processors) and, when the stroke needs it, the stencil
     * program. Hardware tessellation is used only where it is allowed;
     * `preferHardware` stands for the choice the implementation makes among
     * the allowed strategies.
     */
    method PrePrepareTessellator(caps: Caps, preferHardware: bool)
      requires Valid() && !mergedAway && Phase() == Created
      modifies this
      ensures Valid() && !mergedAway && Phase() == PrePrepared
      ensures fresh(tessellator)
      ensures tessellator.strategy ==
                if preferHardware && old(CanUseHardwareTessellation(caps)) then HardwareTessellation else Indirect
      ensures tessellator.strategy == HardwareTessellation ==>
                caps.tessellationSupport && !old(processors).value.usesVaryingCoords
      ensures tessellator.shaderFlags == shaderFlags
      ensures processors == None
      ensures fillProgram == Some(FillProgram(shaderFlags, old(processors).value))
      ensures stencilProgram == if needsStencil then Some(StencilProgram(shaderFlags)) else None
      ensures unchanged(this`shaderFlags, this`pathStrokeList, this`totalCombinedVerbCnt, this`needsStencil)
      ensures unchanged(this`executed, this`mergedAway)
    {
      var useHardware := preferHardware && CanUseHardwareTessellation(caps);
      tessellator := new Tessellator(if useHardware then HardwareTessellation else Indirect, shaderFlags);
      stencilProgram := if needsStencil then Some(StencilProgram(shaderFlags)) else None;
      fillProgram := Some(FillProgram(shaderFlags, processors.value));
      processors := None;
    }

    /**
     * `onPrepare`: builds the tessellator now if pre-preparation was skipped,
     * then has it fill the buffers for every stroke of the op.
     */
    method OnPrepare(caps: Caps, preferHardware: bool)
      requires Valid() && !mergedAway && (Phase() == Created || Phase() == PrePrepared)
      modifies this, tessellator
      ensures Valid() && !mergedAway && Phase() == Prepared
      ensures old(tessellator) != null ==> tessellator == old(tessellator)
      ensures old(tessellator) == null ==> fresh(tessellator)
      ensures tessellator.buffers == Some(PreparedBuffers(viewMatrix, pathStrokeList, TotalVerbCount(pathStrokeList)))
      ensures unchanged(this`shaderFlags, this`pathStrokeList, this`totalCombinedVerbCnt, this`needsStencil)
      // Built lazily here: exactly what pre-preparation would have built.
      ensures old(tessellator) == null ==>
                && tessellator.strategy ==
                     (if preferHardware && old(caps.tessellationSupport && !processors.value.usesVaryingCoords)
                      then HardwareTessellation else Indirect)
                && tessellator.shaderFlags == shaderFlags
                && processors == None
                && fillProgram == Some(FillProgram(shaderFlags, old(processors).value))
                && stencilProgram == (if needsStencil then Some(StencilProgram(shaderFlags)) else None)
      // Built already: nothing is reconstructed.
      ensures old(tessellator) != null ==> unchanged(this`fillProgram, this`stencilProgram, this`processors)
    {
      if tessellator == null {
        PrePrepareTessellator(caps, preferHardware);
      }
      tessellator.Prepare(viewMatrix, pathStrokeList, totalCombinedVerbCnt);
    }

    /**
     * `onExecute`: with a stencil program, a stencil pass comes first; then
     * the fill program is bound and the tessellator draws again.
     */
    method OnExecute() returns (commands: seq<Command>)
      requires Valid() && !mergedAway && Phase() == Prepared
      modifies this`executed
      ensures Valid() && Phase() == Executed
      ensures PipelineBoundBeforeEachDraw(commands)
      ensures var call := DrawCall(tessellator.strategy, shaderFlags,
                                   PreparedBuffers(viewMatrix, pathStrokeList, TotalVerbCount(pathStrokeList)));
              commands == (if needsStencil then [BindPipeline(StencilProgram(shaderFlags)), Draw(call)] else [])
                          + [BindPipeline(FillProgram(shaderFlags, fillProgram.value.processors)), Draw(call)]
    {
      var call := tessellator.Draw();
      commands := [];
      if stencilProgram != None {
        commands := [BindPipeline(stencilProgram.value), Draw(call)];
      }
      commands := commands + [BindPipeline(fillProgram.value), Draw(call)];
      executed := true;
    }
  }

  /** Editing the head entry without touching its path keeps the verb count. */
  lemma TotalVerbCountHeadEdit(strokes: seq<PathStroke>, head: PathStroke)
    requires strokes != [] && head.path == strokes[0].path
    ensures TotalVerbCount(strokes[0 := head]) == TotalVerbCount(strokes)
  {
    assert strokes[0 := head][1..] == strokes[1..];
  }

  /**
   * Two fresh single-stroke ops of 10 and 5 verbs, with no flags and the same
   * matrix, AA type and processors, merge into one op of 2 strokes and 15 verbs;
   * only the second needs a stencil, so the merged op does.
   */
  method CombineTwoSingleStrokeOps(aaType: AAType, viewMatrix: Matrix, paint: Paint, stroke: StrokeRec)
    returns (op: StrokeTessellateOp)
    ensures |op.pathStrokeList| == 2 && op.totalCombinedVerbCnt == 15 && op.shaderFlags == NoFlags
    ensures op.needsStencil
  {
    op := new StrokeTessellateOp(aaType, viewMatrix, Path(1, 10), stroke, paint);
    var other := new StrokeTessellateOp(aaType, viewMatrix, Path(2, 5), stroke, paint);
    other.SetNeedsStencil(true);
    var result := op.CombineIfPossible(other);
    assert result == Merged;
  }
}
