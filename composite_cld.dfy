/**
 * The coherent line drawing composite: a grayscale pass and the edge tangent flow of the
 * image, then `iteration` rounds of a flow-based difference of Gaussians (two edge blurs
 * of the grayscale image along the flow, their difference, a blur along the streamlines
 * and a tanh threshold). Every round but the last superimposes the first input texture on
 * its threshold lines; the last round's threshold target is the result.
 */
module CompositeCoherentLineDrawings {
  import opened Wrappers
  import opened GpuModel
  import opened Framebuffers
  import opened FramebufferPools
  import opened Passes
  import opened CompositeEdgeTangentFlows

  /** sigmaS is sigmaC times this factor. */
  const Scalar: real := 1.6

  /** The attachment of the smoothed edge tangent flow that holds the xy vector. */
  const EtfXYVector: nat := 0

  /** The attachment of an edge blur that holds the blurred image. */
  const EdgeBlurImage: nat := 0

  /** The attachment of the tanh threshold that holds the lines. */
  const ThresholdLines: nat := 0

  /** The uniform values of the rounds. */
  datatype CLDParams = CLDParams(p: real, sigmaS: real, sigmaC: real, sigmaM: real, tau: real)

  /**
   * The first half of a round from the grayscale texture `gray` along `flow`: the edge
   * blur with sigmaC, the one with sigmaS, and the difference of their images into `dog`.
   */
  predicate DifferenceDraws(ds: seq<DrawRecord>, cp: CLDParams, gray: Texture, flow: Texture, dog: seq<Texture>)
  {
    && |ds| == 3
    && ds[0] == DrawRecord(EdgeBlur, [cp.sigmaC], [gray, flow], ds[0].target)
    && |ds[0].target| == OutputTextureCount(EdgeBlur)
    && ds[1] == DrawRecord(EdgeBlur, [cp.sigmaS], [gray, flow], ds[1].target)
    && |ds[1].target| == OutputTextureCount(EdgeBlur)
    && ds[2] == DrawRecord(SubtractFDoG, [cp.p], [ds[0].target[EdgeBlurImage], ds[1].target[EdgeBlurImage]], dog)
  }

  /** The second half of a round: the streamline blur of `dog`, then its tanh threshold into `lines`. */
  predicate ThresholdDraws(ds: seq<DrawRecord>, cp: CLDParams, dog: seq<Texture>, lines: seq<Texture>)
  {
    && |ds| == 2
    && ds[0] == DrawRecord(StreamlineBlur, [cp.sigmaM], dog, ds[0].target)
    && ds[1] == DrawRecord(TanhThreshold, [cp.tau], ds[0].target, lines)
  }

  /** One round: the difference draws, then the threshold draws of their result into `lines`. */
  predicate LineRound(ds: seq<DrawRecord>, cp: CLDParams, gray: Texture, flow: Texture, lines: seq<Texture>)
  {
    && |ds| == 5
    && DifferenceDraws(ds[..3], cp, gray, flow, ds[2].target)
    && ThresholdDraws(ds[3..], cp, ds[2].target, lines)
  }

  /**
   * A round that is not the last one: the round, then the superimposition of the first
   * input texture on its (single) threshold attachment into `out`.
   */
  predicate SuperimposedRound(ds: seq<DrawRecord>, cp: CLDParams, gray: Texture, flow: Texture,
                              inputs: seq<Texture>, out: seq<Texture>)
  {
    && |ds| == 6
    && LineRound(ds[..5], cp, gray, flow, ds[4].target)
    && |ds[4].target| == OutputTextureCount(TanhThreshold) && |inputs| >= 1
    && ds[5] == DrawRecord(SuperImpose, [], [inputs[0], ds[4].target[ThresholdLines]], out)
  }

  /** A run of rounds that are not the last one. */
  predicate SuperimposedRounds(ds: seq<DrawRecord>, cp: CLDParams, gray: Texture, flow: Texture, inputs: seq<Texture>)
    decreases |ds|
  {
    if |ds| == 0 then true
    else
      && |ds| >= 6
      && SuperimposedRounds(ds[..|ds| - 6], cp, gray, flow, inputs)
      && SuperimposedRound(ds[|ds| - 6..], cp, gray, flow, inputs, ds[|ds| - 1].target)
  }

  /**
   * The draws of the loop: nothing when `iteration` is below one, and the result is the
   * grayscale target `grayTarget`; otherwise `iteration - 1` superimposed rounds and a last
   * round whose threshold target is the result.
   */
  predicate LoopDraws(ds: seq<DrawRecord>, iteration: int, cp: CLDParams, gray: Texture, flow: Texture,
                      inputs: seq<Texture>, grayTarget: seq<Texture>, out: seq<Texture>)
  {
    if iteration < 1 then |ds| == 0 && out == grayTarget
    else
      && |ds| == 6 * (iteration - 1) + 5
      && SuperimposedRounds(ds[..|ds| - 5], cp, gray, flow, inputs)
      && LineRound(ds[|ds| - 5..], cp, gray, flow, out)
  }

  /**
   * The draws before the loop: the grayscale pass of `inputs` into `grayTarget`, then the
   * edge-tangent-flow composite of `inputs` into `etfOut`.
   */
  predicate FrontDraws(ds: seq<DrawRecord>, etfKernelSize: real, etfIteration: int, inputs: seq<Texture>,
                       grayTarget: seq<Texture>, etfOut: seq<Texture>)
  {
    && |ds| >= 1
    && ds[0] == DrawRecord(Grayscale, [], inputs, grayTarget)
    && |grayTarget| == OutputTextureCount(Grayscale)
    && EdgeTangentFlowDraws(ds[1..], etfKernelSize, etfIteration, inputs, etfOut)
    && |etfOut| >= 1
  }

  /**
   * The draws of one composite run from `inputs` into `out`: the grayscale pass, the
   * edge-tangent-flow composite, and the loop over the first grayscale texture along the
   * flow attachment.
   */
  predicate CLDDraws(ds: seq<DrawRecord>, etfKernelSize: real, etfIteration: int, iteration: int, cp: CLDParams,
                     inputs: seq<Texture>, out: seq<Texture>)
  {
    var n := 2 + 2 * (if etfIteration < 0 then 0 else etfIteration);
    && |ds| >= n + 1
    && FrontDraws(ds[..n + 1], etfKernelSize, etfIteration, inputs, ds[0].target, ds[n].target)
    && LoopDraws(ds[n + 1..], iteration, cp, ds[0].target[0], ds[n].target[EtfXYVector], inputs, ds[0].target, out)
  }

  /**
   * The draws appended to the log `before` to give `after` are one composite run: `after`
   * extends `before`, and whatever follows `before` in it satisfies CLDDraws.
   */
  ghost predicate CLDRun(before: seq<DrawRecord>, after: seq<DrawRecord>, etfKernelSize: real, etfIteration: int,
                         iteration: int, cp: CLDParams, inputs: seq<Texture>, out: seq<Texture>)
  {
    && before <= after
    && forall ds | after == before + ds :: CLDDraws(ds, etfKernelSize, etfIteration, iteration, cp, inputs, out)
  }

  /** A run found past the prefix is a run appended to it. */
  lemma CLDRunOfSuffix(before: seq<DrawRecord>, after: seq<DrawRecord>, etfKernelSize: real, etfIteration: int,
                       iteration: int, cp: CLDParams, inputs: seq<Texture>, out: seq<Texture>)
    requires before <= after
    requires CLDDraws(after[|before|..], etfKernelSize, etfIteration, iteration, cp, inputs, out)
    ensures CLDRun(before, after, etfKernelSize, etfIteration, iteration, cp, inputs, out)
  {
    forall ds | after == before + ds
      ensures CLDDraws(ds, etfKernelSize, etfIteration, iteration, cp, inputs, out)
    {
      assert ds == after[|before|..];
    }
  }

  /**
   * What the draws of the rounds read: every edge blur the same grayscale texture id and
   * the flow, every superimposition the first input texture first. Ids only: after the
   * first round hands the grayscale target back, a later round may draw into it.
   */
  predicate RoundReads(ds: seq<DrawRecord>, gray: Texture, flow: Texture, inputs: seq<Texture>)
  {
    && (forall j :: 0 <= j < |ds| && ds[j].kernel == EdgeBlur ==> ds[j].inputs == [gray, flow])
    && (forall j :: 0 <= j < |ds| && ds[j].kernel == SuperImpose ==>
          |inputs| >= 1 && |ds[j].inputs| == 2 && ds[j].inputs[0] == inputs[0])
  }

  /** A log is the part before any index followed by the part from it. */
  lemma LogSplitAt(ds: seq<DrawRecord>, k: nat)
    requires k <= |ds|
    ensures ds == ds[..k] + ds[k..]
  {
  }

  /** What the rounds read holds over two runs of draws one after the other. */
  lemma RoundReadsJoin(front: seq<DrawRecord>, last: seq<DrawRecord>, gray: Texture, flow: Texture, inputs: seq<Texture>)
    requires RoundReads(front, gray, flow, inputs) && RoundReads(last, gray, flow, inputs)
    ensures RoundReads(front + last, gray, flow, inputs)
  {
    forall j | 0 <= j < |front + last|
      ensures (front + last)[j] == if j < |front| then front[j] else last[j - |front|]
    {
    }
  }

  /** A round reads the grayscale texture and the flow in both edge blurs and ends in its threshold. */
  lemma LineRoundRead(ds: seq<DrawRecord>, cp: CLDParams, gray: Texture, flow: Texture, lines: seq<Texture>,
                      inputs: seq<Texture>)
    requires LineRound(ds, cp, gray, flow, lines)
    ensures RoundReads(ds, gray, flow, inputs)
    ensures ds[4].kernel == TanhThreshold && ds[4].target == lines
  {
    assert ds[..3][0] == ds[0] && ds[..3][1] == ds[1] && ds[..3][2] == ds[2];
    assert ds[3..][0] == ds[3] && ds[3..][1] == ds[4];
  }

  /** A round that is not the last reads what a round reads, then the first input texture. */
  lemma SuperimposedRoundRead(ds: seq<DrawRecord>, cp: CLDParams, gray: Texture, flow: Texture,
                              inputs: seq<Texture>, out: seq<Texture>)
    requires SuperimposedRound(ds, cp, gray, flow, inputs, out)
    ensures RoundReads(ds, gray, flow, inputs)
  {
    LineRoundRead(ds[..5], cp, gray, flow, ds[4].target, inputs);
    LogSplitAt(ds, 5);
    assert RoundReads(ds[5..], gray, flow, inputs);
    RoundReadsJoin(ds[..5], ds[5..], gray, flow, inputs);
  }

  /** What the superimposed rounds read. */
  lemma {:induction false} SuperimposedRoundsRead(ds: seq<DrawRecord>, cp: CLDParams, gray: Texture, flow: Texture,
                                                  inputs: seq<Texture>)
    requires SuperimposedRounds(ds, cp, gray, flow, inputs)
    ensures RoundReads(ds, gray, flow, inputs)
    decreases |ds|
  {
    if |ds| > 0 {
      var front := ds[..|ds| - 6];
      var last := ds[|ds| - 6..];
      SuperimposedRoundsRead(front, cp, gray, flow, inputs);
      SuperimposedRoundRead(last, cp, gray, flow, inputs, ds[|ds| - 1].target);
      LogSplitAt(ds, |ds| - 6);
      RoundReadsJoin(front, last, gray, flow, inputs);
    }
  }

  /**
   * The shape of the loop: what the rounds read, and the result is the grayscale target
   * when no round runs and the last round's threshold target otherwise.
   */
  lemma LoopShape(ds: seq<DrawRecord>, iteration: int, cp: CLDParams, gray: Texture, flow: Texture,
                  inputs: seq<Texture>, grayTarget: seq<Texture>, out: seq<Texture>)
    requires LoopDraws(ds, iteration, cp, gray, flow, inputs, grayTarget, out)
    ensures RoundReads(ds, gray, flow, inputs)
    ensures iteration < 1 ==> |ds| == 0 && out == grayTarget
    ensures iteration >= 1 ==> |ds| == 6 * iteration - 1 && ds[|ds| - 1].kernel == TanhThreshold
                               && ds[|ds| - 1].target == out
  {
    if iteration >= 1 {
      var front := ds[..|ds| - 5];
      var last := ds[|ds| - 5..];
      SuperimposedRoundsRead(front, cp, gray, flow, inputs);
      LineRoundRead(last, cp, gray, flow, out, inputs);
      LogSplitAt(ds, |ds| - 5);
      RoundReadsJoin(front, last, gray, flow, inputs);
    }
  }

  /**
   * The shape of a composite run: every edge blur of every round reads the first grayscale
   * texture and the flow attachment of the edge tangent flow; every superimposition reads
   * the first input texture; the result is the grayscale target when no round runs and
   * the last round's threshold target otherwise.
   */
  lemma CLDShape(ds: seq<DrawRecord>, etfKernelSize: real, etfIteration: int, iteration: int, cp: CLDParams,
                 inputs: seq<Texture>, out: seq<Texture>)
    requires CLDDraws(ds, etfKernelSize, etfIteration, iteration, cp, inputs, out)
    ensures var n := 2 + 2 * (if etfIteration < 0 then 0 else etfIteration);
      && ds[0].kernel == Grayscale
      && RoundReads(ds[n + 1..], ds[0].target[0], ds[n].target[EtfXYVector], inputs)
      && (iteration < 1 ==> |ds| == n + 1 && out == ds[0].target)
      && (iteration >= 1 ==> |ds| == n + 6 * iteration && ds[|ds| - 1].kernel == TanhThreshold
                             && ds[|ds| - 1].target == out)
  {
    var n := 2 + 2 * (if etfIteration < 0 then 0 else etfIteration);
    var loop := ds[n + 1..];
    LoopShape(loop, iteration, cp, ds[0].target[0], ds[n].target[EtfXYVector], inputs, ds[0].target, out);
  }

  /** The draws since `d0` are those up to `d1` followed by those since `d1`. */
  lemma LogSplit(d0: seq<DrawRecord>, d1: seq<DrawRecord>, d2: seq<DrawRecord>)
    requires d0 <= d1 <= d2
    ensures d0 <= d2
    ensures d2[|d0|..][..|d2[|d0|..]| - |d2[|d1|..]|] == d1[|d0|..]
    ensures d2[|d0|..][|d2[|d0|..]| - |d2[|d1|..]|..] == d2[|d1|..]
  {
  }

  /** A superimposed round after a run of them extends the run. */
  lemma SuperimposedRoundsExtend(d0: seq<DrawRecord>, d1: seq<DrawRecord>, d2: seq<DrawRecord>, cp: CLDParams,
                                 gray: Texture, flow: Texture, inputs: seq<Texture>, out: seq<Texture>)
    requires d0 <= d1 && SuperimposedRounds(d1[|d0|..], cp, gray, flow, inputs)
    requires d1 <= d2 && SuperimposedRound(d2[|d1|..], cp, gray, flow, inputs, out)
    ensures d0 <= d2 && SuperimposedRounds(d2[|d0|..], cp, gray, flow, inputs)
    ensures |d2[|d0|..]| == |d1[|d0|..]| + 6
  {
    LogSplit(d0, d1, d2);
  }

  /** A last round after the superimposed ones completes the loop. */
  lemma LoopDrawsFinish(d0: seq<DrawRecord>, d1: seq<DrawRecord>, d2: seq<DrawRecord>, iteration: int,
                        cp: CLDParams, gray: Texture, flow: Texture, inputs: seq<Texture>,
                        grayTarget: seq<Texture>, out: seq<Texture>)
    requires iteration >= 1 && d0 <= d1 && SuperimposedRounds(d1[|d0|..], cp, gray, flow, inputs)
    requires |d1[|d0|..]| == 6 * (iteration - 1)
    requires d1 <= d2 && LineRound(d2[|d1|..], cp, gray, flow, out)
    ensures d0 <= d2 && LoopDraws(d2[|d0|..], iteration, cp, gray, flow, inputs, grayTarget, out)
  {
    LogSplit(d0, d1, d2);
  }

  /** The grayscale draw followed by an edge-tangent-flow run makes the draws before the loop. */
  lemma FrontJoin(back: seq<DrawRecord>, etfKernelSize: real, etfIteration: int, inputs: seq<Texture>,
                  grayTarget: seq<Texture>, etfOut: seq<Texture>)
    requires |grayTarget| == OutputTextureCount(Grayscale) && |etfOut| >= 1
    requires EdgeTangentFlowDraws(back, etfKernelSize, etfIteration, inputs, etfOut)
    ensures FrontDraws([DrawRecord(Grayscale, [], inputs, grayTarget)] + back, etfKernelSize, etfIteration, inputs,
                       grayTarget, etfOut)
  {
    assert ([DrawRecord(Grayscale, [], inputs, grayTarget)] + back)[1..] == back;
  }

  /** The draws before the loop followed by the loop's draws are a composite run. */
  lemma CLDJoin(front: seq<DrawRecord>, back: seq<DrawRecord>, etfKernelSize: real, etfIteration: int, iteration: int,
                cp: CLDParams, inputs: seq<Texture>, grayTarget: seq<Texture>, etfOut: seq<Texture>, out: seq<Texture>)
    requires FrontDraws(front, etfKernelSize, etfIteration, inputs, grayTarget, etfOut)
    requires LoopDraws(back, iteration, cp, grayTarget[0], etfOut[EtfXYVector], inputs, grayTarget, out)
    ensures CLDDraws(front + back, etfKernelSize, etfIteration, iteration, cp, inputs, out)
  {
    var ds := front + back;
    var n := 2 + 2 * (if etfIteration < 0 then 0 else etfIteration);
    assert |front[1..]| == n;
    assert front[n] == front[1..][n - 1];
    assert ds[..n + 1] == front && ds[n + 1..] == back;
  }

  /** The draw log of one composite run, from its three parts. */
  lemma CLDAssemble(d0: seq<DrawRecord>, d2: seq<DrawRecord>, d3: seq<DrawRecord>,
                    etfKernelSize: real, etfIteration: int, iteration: int, cp: CLDParams, inputs: seq<Texture>,
                    grayTarget: seq<Texture>, etfOut: seq<Texture>, out: seq<Texture>)
    requires d0 <= d2 && FrontDraws(d2[|d0|..], etfKernelSize, etfIteration, inputs, grayTarget, etfOut)
    requires d2 <= d3 && LoopDraws(d3[|d2|..], iteration, cp, grayTarget[0], etfOut[EtfXYVector], inputs, grayTarget, out)
    ensures d0 <= d3 && CLDDraws(d3[|d0|..], etfKernelSize, etfIteration, iteration, cp, inputs, out)
  {
    LogJoin(d0, d2, d3);
    CLDJoin(d2[|d0|..], d3[|d2|..], etfKernelSize, etfIteration, iteration, cp, inputs, grayTarget, etfOut, out);
  }

  /** A difference half followed by a threshold half of its result makes a round. */
  lemma LineRoundAssemble(d0: seq<DrawRecord>, d1: seq<DrawRecord>, d2: seq<DrawRecord>, cp: CLDParams,
                          gray: Texture, flow: Texture, dog: seq<Texture>, lines: seq<Texture>)
    requires d0 <= d1 && DifferenceDraws(d1[|d0|..], cp, gray, flow, dog)
    requires d1 <= d2 && ThresholdDraws(d2[|d1|..], cp, dog, lines)
    ensures d0 <= d2 && LineRound(d2[|d0|..], cp, gray, flow, lines)
  {
    LogSplit(d0, d1, d2);
  }

  /** The bookkeeping of two targets taken one after the other. */
  lemma TwoTakenInUse(u0: set<Framebuffer>, u1: set<Framebuffer>, u2: set<Framebuffer>, a: Framebuffer, b: Framebuffer)
    requires a !in u0 && u1 == u0 + {a} && b !in u1 && u2 == u1 + {b}
    ensures a != b && a !in u0 && b !in u0 && u2 == u0 + {a, b}
  {
  }

  /** The difference half: two edge-blur targets taken, the difference target taken, both blurs handed back. */
  lemma DifferenceInUse(u0: set<Framebuffer>, u1: set<Framebuffer>, u2: set<Framebuffer>, u3: set<Framebuffer>,
                        b1: Framebuffer, b2: Framebuffer, s: Framebuffer)
    requires b1 != b2 && b1 !in u0 && b2 !in u0 && u1 == u0 + {b1, b2}
    requires s !in u1 && u2 == u1 + {s} && u3 == u2 - {b1} - {b2}
    ensures s !in u0 && u3 == u0 + {s}
  {
  }

  /** The threshold half: the streamline target taken, `dog` handed back, the threshold taken, the streamline handed back. */
  lemma ThresholdInUse(u0: set<Framebuffer>, u1: set<Framebuffer>, u2: set<Framebuffer>, u3: set<Framebuffer>,
                       u4: set<Framebuffer>, dog: Framebuffer, l: Framebuffer, t: Framebuffer)
    requires dog in u0 && l !in u0 && u1 == u0 + {l} && u2 == u1 - {dog}
    requires t !in u2 && u3 == u2 + {t} && u4 == u3 - {l}
    ensures t !in u0 - {dog} && u4 == (u0 - {dog}) + {t}
  {
  }

  /** A round that is not the last: its threshold and the iteration's starting target handed back. */
  lemma SuperimposeInUse(u0: set<Framebuffer>, u1: set<Framebuffer>, u2: set<Framebuffer>, u3: set<Framebuffer>,
                         u4: set<Framebuffer>, current: Framebuffer, t: Framebuffer, q: Framebuffer)
    requires current in u0 && t !in u0 && u1 == u0 + {t} && q !in u1 && u2 == u1 + {q}
    requires u3 == u2 - {t} && u4 == u3 - {current}
    ensures q !in u0 - {current} && u4 == (u0 - {current}) + {q}
  {
  }

  /**
   * The in-use bookkeeping of one composite run: the grayscale target and the
   * edge-tangent-flow target (still in use or not) taken, the loop trading the grayscale
   * target for its result, and the edge-tangent-flow target handed back.
   */
  lemma CLDInUse(u0: set<Framebuffer>, u1: set<Framebuffer>, u2: set<Framebuffer>, u4: set<Framebuffer>,
                 gray: Framebuffer, etf: Framebuffer, r: Framebuffer)
    requires gray !in u0 && u1 == u0 + {gray}
    requires etf !in u1 && (u2 == u1 || u2 == u1 + {etf}) && (u2 == u1 ==> r != etf)
    requires r !in u2 - {gray} && u4 == ((u2 - {gray}) + {r}) - {etf}
    ensures r !in u0 && u4 == u0 + {r}
  {
  }

  class CompositeShaderCoherentLineDrawing {
    const etf: CompositeShaderEdgeTangentFlow
    var p: real
    var sigmaS: real
    var sigmaC: real
    var sigmaM: real
    var tau: real
    var iteration: int
    var etfKernelSize: real
    var etfIteration: int

    constructor ()
      ensures p == 0.9 && sigmaS == 1.0 && sigmaC == 1.6 && sigmaM == 1.5 && tau == 0.92
      ensures iteration == 2 && etfKernelSize == 7.0 && etfIteration == 2
      ensures fresh(etf)
    {
      etf := new CompositeShaderEdgeTangentFlow();
      p := 0.9;
      sigmaS := 1.0;
      sigmaC := 1.6;
      sigmaM := 1.5;
      tau := 0.92;
      iteration := 2;
      etfKernelSize := 7.0;
      etfIteration := 2;
    }

    /**
     * setUniformValues as written: sigmaS follows the thickness argument, but the field
     * sigmaC itself is never assigned, so the first edge blur keeps its previous sigma.
     */
    method SetUniformValuesAsWritten(sigmaC: real, sigmaM: real, etfKernelSize: real, tau: real, p: real,
                                     iteration: int, etfIteration: int)
      modifies this`p, this`sigmaS, this`tau, this`etfKernelSize, this`sigmaM, this`iteration, this`etfIteration
      ensures this.p == p && this.sigmaS == sigmaC * Scalar && this.tau == tau && this.etfKernelSize == etfKernelSize
      ensures this.sigmaM == sigmaM && this.iteration == iteration && this.etfIteration == etfIteration
      ensures this.sigmaC == old(this.sigmaC)
    {
      this.p := p;
      this.sigmaS := sigmaC * Scalar;
      this.tau := tau;
      this.etfKernelSize := etfKernelSize;
      this.sigmaM := sigmaM;
      this.iteration := iteration;
      this.etfIteration := etfIteration;
    }

    /**
     * setUniformValues as intended: the thickness argument is the first edge blur's sigma
     * and, scaled, the second one's.
     */
    method SetUniformValues(sigmaC: real, sigmaM: real, etfKernelSize: real, tau: real, p: real,
                            iteration: int, etfIteration: int)
      modifies this`p, this`sigmaS, this`sigmaC, this`tau, this`etfKernelSize, this`sigmaM, this`iteration
      modifies this`etfIteration
      ensures this.p == p && this.sigmaS == sigmaC * Scalar && this.sigmaC == sigmaC && this.tau == tau
      ensures this.etfKernelSize == etfKernelSize && this.sigmaM == sigmaM && this.iteration == iteration
      ensures this.etfIteration == etfIteration
    {
      this.p := p;
      this.sigmaS := sigmaC * Scalar;
      this.sigmaC := sigmaC;
      this.tau := tau;
      this.etfKernelSize := etfKernelSize;
      this.sigmaM := sigmaM;
      this.iteration := iteration;
      this.etfIteration := etfIteration;
    }

    /** The uniform values the next render uses. */
    function Params(): CLDParams
      reads this
    {
      CLDParams(p, sigmaS, sigmaC, sigmaM, tau)
    }

    /**
     * The two edge blurs of a round, of the grayscale texture along the flow, with sigmaC
     * and sigmaS, into two distinct targets that both stay in use.
     */
    method EdgeBlurPair(pool: FramebufferPool, width: int, height: int, gray: Texture, flow: Texture)
      returns (edgeBlur1Fbo: Framebuffer, edgeBlur2Fbo: Framebuffer)
      requires pool.Valid() && !pool.gpu.contextLost
      modifies pool`pool, pool`inUse, pool.gpu`nextTexture, pool.gpu`nextFramebuffer, pool.gpu`trace, pool.gpu`draws
      ensures pool.Valid()
      ensures old(pool.gpu.nextTexture) <= pool.gpu.nextTexture
      ensures
        && edgeBlur1Fbo in pool.pool && Fits(edgeBlur1Fbo, width, height, OutputTextureCount(EdgeBlur))
        && edgeBlur2Fbo in pool.pool && Fits(edgeBlur2Fbo, width, height, OutputTextureCount(EdgeBlur))
        && edgeBlur1Fbo != edgeBlur2Fbo && edgeBlur1Fbo !in old(pool.inUse) && edgeBlur2Fbo !in old(pool.inUse)
        && pool.inUse == old(pool.inUse) + {edgeBlur1Fbo, edgeBlur2Fbo}
      ensures pool.gpu.draws == old(pool.gpu.draws)
        + [DrawRecord(EdgeBlur, [sigmaC], [gray, flow], edgeBlur1Fbo.textures),
           DrawRecord(EdgeBlur, [sigmaS], [gray, flow], edgeBlur2Fbo.textures)]
      ensures old(pool.gpu.Allocated([gray, flow])) ==>
        SharesNone(edgeBlur1Fbo, [gray, flow]) && SharesNone(edgeBlur2Fbo, [gray, flow])
    {
      ghost var u0 := pool.inUse;
      var edgeBlur1InputTextures := [gray, flow];
      edgeBlur1Fbo := WritePass(pool, EdgeBlur, [sigmaC], edgeBlur1InputTextures, width, height,
                                OutputTextureCount(EdgeBlur));
      ghost var u1 := pool.inUse;
      ghost var d1 := pool.gpu.draws;
      var edgeBlur2InputTextures := [gray, flow];
      edgeBlur2Fbo := WritePass(pool, EdgeBlur, [sigmaS], edgeBlur2InputTextures, width, height,
                                OutputTextureCount(EdgeBlur));
      assert pool.gpu.draws == d1 + [pool.gpu.draws[|d1|]];
      TwoTakenInUse(u0, u1, pool.inUse, edgeBlur1Fbo, edgeBlur2Fbo);
    }

    /**
     * The first half of a round: the two edge blurs, the difference of their images, and
     * both edge-blur targets handed back. Only the difference target stays in use.
     */
    method DifferenceStage(pool: FramebufferPool, width: int, height: int, gray: Texture, flow: Texture)
      returns (subtractFDoGFbo: Framebuffer)
      requires pool.Valid() && !pool.gpu.contextLost
      modifies pool`pool, pool`inUse, pool.gpu`nextTexture, pool.gpu`nextFramebuffer, pool.gpu`trace, pool.gpu`draws
      ensures pool.Valid()
      ensures old(pool.gpu.nextTexture) <= pool.gpu.nextTexture
      ensures pool.HandsOut(subtractFDoGFbo, old(pool.inUse), width, height, OutputTextureCount(SubtractFDoG))
      ensures old(pool.gpu.draws) <= pool.gpu.draws
      ensures DifferenceDraws(pool.gpu.draws[|old(pool.gpu.draws)|..], Params(), gray, flow, subtractFDoGFbo.textures)
      ensures old(pool.gpu.Allocated([gray, flow])) ==> AllAliasFree(pool.gpu.draws[|old(pool.gpu.draws)|..])
    {
      ghost var d0 := pool.gpu.draws;
      ghost var u0 := pool.inUse;
      var edgeBlur1Fbo, edgeBlur2Fbo := EdgeBlurPair(pool, width, height, gray, flow);
      ghost var u1 := pool.inUse;
      pool.AttachmentsAllocated(edgeBlur1Fbo);
      pool.AttachmentsAllocated(edgeBlur2Fbo);
      pool.gpu.AllocatedPair(edgeBlur1Fbo.textures, EdgeBlurImage, edgeBlur2Fbo.textures, EdgeBlurImage);
      var subtractFDoGInputTextures := [edgeBlur1Fbo.GetTextures()[EdgeBlurImage], edgeBlur2Fbo.GetTextures()[EdgeBlurImage]];
      subtractFDoGFbo := WritePass(pool, SubtractFDoG, [p], subtractFDoGInputTextures, width, height,
                                   OutputTextureCount(SubtractFDoG));
      ghost var u2 := pool.inUse;
      pool.Release(edgeBlur1Fbo);
      pool.Release(edgeBlur2Fbo);
      DifferenceInUse(u0, u1, u2, pool.inUse, edgeBlur1Fbo, edgeBlur2Fbo, subtractFDoGFbo);
      assert pool.gpu.draws[|d0|..][2] == pool.gpu.draws[|d0| + 2];
    }

    /**
     * The second half of a round: the streamline blur of the difference, the difference
     * target handed back, the tanh threshold, and the streamline target handed back. Only
     * the threshold target stays in use.
     */
    method ThresholdStage(pool: FramebufferPool, width: int, height: int, subtractFDoGFbo: Framebuffer)
      returns (tanhThresholdFbo: Framebuffer)
      requires pool.Valid() && !pool.gpu.contextLost && subtractFDoGFbo in pool.inUse
      modifies pool`pool, pool`inUse, pool.gpu`nextTexture, pool.gpu`nextFramebuffer, pool.gpu`trace, pool.gpu`draws
      ensures pool.Valid()
      ensures old(pool.gpu.nextTexture) <= pool.gpu.nextTexture
      ensures && tanhThresholdFbo in pool.pool && Fits(tanhThresholdFbo, width, height, OutputTextureCount(TanhThreshold))
              && tanhThresholdFbo !in old(pool.inUse) - {subtractFDoGFbo}
              && pool.inUse == (old(pool.inUse) - {subtractFDoGFbo}) + {tanhThresholdFbo}
      ensures old(pool.gpu.draws) <= pool.gpu.draws
      ensures ThresholdDraws(pool.gpu.draws[|old(pool.gpu.draws)|..], Params(), subtractFDoGFbo.textures,
                             tanhThresholdFbo.textures)
      ensures AllAliasFree(pool.gpu.draws[|old(pool.gpu.draws)|..])
    {
      ghost var u0 := pool.inUse;
      pool.AttachmentsAllocated(subtractFDoGFbo);
      var subtractFDoGTextures := subtractFDoGFbo.GetTextures();
      var streamlineBlurFbo := WritePass(pool, StreamlineBlur, [sigmaM], subtractFDoGTextures, width, height,
                                         OutputTextureCount(StreamlineBlur));
      ghost var u1 := pool.inUse;
      ghost var d1 := pool.gpu.draws;
      pool.Release(subtractFDoGFbo);
      ghost var u2 := pool.inUse;
      pool.AttachmentsAllocated(streamlineBlurFbo);
      tanhThresholdFbo := WritePass(pool, TanhThreshold, [tau], streamlineBlurFbo.GetTextures(), width, height,
                                    OutputTextureCount(TanhThreshold));
      ghost var u3 := pool.inUse;
      pool.Release(streamlineBlurFbo);
      ThresholdInUse(u0, u1, u2, u3, pool.inUse, subtractFDoGFbo, streamlineBlurFbo, tanhThresholdFbo);
      assert pool.gpu.draws == d1 + [pool.gpu.draws[|d1|]];
    }

    /** One round, from the grayscale texture along the flow; only its threshold target stays in use. */
    method LineStage(pool: FramebufferPool, width: int, height: int, gray: Texture, flow: Texture)
      returns (tanhThresholdFbo: Framebuffer)
      requires pool.Valid() && !pool.gpu.contextLost
      modifies pool`pool, pool`inUse, pool.gpu`nextTexture, pool.gpu`nextFramebuffer, pool.gpu`trace, pool.gpu`draws
      ensures pool.Valid()
      ensures old(pool.gpu.nextTexture) <= pool.gpu.nextTexture
      ensures pool.HandsOut(tanhThresholdFbo, old(pool.inUse), width, height, OutputTextureCount(TanhThreshold))
      ensures old(pool.gpu.draws) <= pool.gpu.draws
      ensures LineRound(pool.gpu.draws[|old(pool.gpu.draws)|..], Params(), gray, flow, tanhThresholdFbo.textures)
      ensures old(pool.gpu.Allocated([gray, flow])) ==> AllAliasFree(pool.gpu.draws[|old(pool.gpu.draws)|..])
    {
      ghost var d0 := pool.gpu.draws;
      var subtractFDoGFbo := DifferenceStage(pool, width, height, gray, flow);
      ghost var d1 := pool.gpu.draws;
      tanhThresholdFbo := ThresholdStage(pool, width, height, subtractFDoGFbo);
      LineRoundAssemble(d0, d1, pool.gpu.draws, Params(), gray, flow, subtractFDoGFbo.textures, tanhThresholdFbo.textures);
      if old(pool.gpu.Allocated([gray, flow])) {
        AliasFreeJoin(d0, d1, pool.gpu.draws);
      }
    }

    /**
     * One iteration of the loop from the target `currentFbo` it starts with. A round that
     * is not the last superimposes the first input texture on the threshold lines, hands
     * back the threshold and `currentFbo`, and makes the superimposition current; the last
     * round hands back `currentFbo` and makes the threshold current.
     */
    method Iteration(pool: FramebufferPool, width: int, height: int, gray: Texture, flow: Texture,
                     inputTextures: seq<Texture>, currentFbo: Framebuffer, last: bool)
      returns (next: Framebuffer)
      requires pool.Valid() && !pool.gpu.contextLost && currentFbo in pool.inUse
      requires pool.gpu.Allocated([gray, flow]) && (!last ==> |inputTextures| >= 1)
      modifies pool`pool, pool`inUse, pool.gpu`nextTexture, pool.gpu`nextFramebuffer, pool.gpu`trace, pool.gpu`draws
      ensures pool.Valid()
      ensures old(pool.gpu.nextTexture) <= pool.gpu.nextTexture
      ensures && next in pool.pool && Fits(next, width, height, OutputTextureCount(TanhThreshold))
              && next !in old(pool.inUse) - {currentFbo} && pool.inUse == (old(pool.inUse) - {currentFbo}) + {next}
      ensures old(pool.gpu.draws) <= pool.gpu.draws
      ensures last ==> LineRound(pool.gpu.draws[|old(pool.gpu.draws)|..], Params(), gray, flow, next.textures)
      ensures !last ==>
        SuperimposedRound(pool.gpu.draws[|old(pool.gpu.draws)|..], Params(), gray, flow, inputTextures, next.textures)
      ensures last || old(pool.gpu.Allocated(inputTextures)) ==> AllAliasFree(pool.gpu.draws[|old(pool.gpu.draws)|..])
    {
      ghost var d0 := pool.gpu.draws;
      ghost var u0 := pool.inUse;
      ghost var allocated0 := pool.gpu.Allocated(inputTextures);
      var tanhThresholdFbo := LineStage(pool, width, height, gray, flow);
      ghost var d1 := pool.gpu.draws;
      ghost var u1 := pool.inUse;
      if !last {
        pool.AttachmentsAllocated(tanhThresholdFbo);
        if allocated0 {
          pool.gpu.AllocatedPair(inputTextures, 0, tanhThresholdFbo.textures, ThresholdLines);
        }
        var superImposeInputTexture := [inputTextures[0], tanhThresholdFbo.GetTextures()[ThresholdLines]];
        next := WritePass(pool, SuperImpose, [], superImposeInputTexture, width, height,
                          OutputTextureCount(TanhThreshold));
        ghost var u2 := pool.inUse;
        pool.Release(tanhThresholdFbo);
        ghost var u3 := pool.inUse;
        pool.Release(currentFbo);
        SuperimposeInUse(u0, u1, u2, u3, pool.inUse, currentFbo, tanhThresholdFbo, next);
        ghost var ds := pool.gpu.draws[|d0|..];
        assert ds[..5] == d1[|d0|..] && ds[5] == pool.gpu.draws[|d1|];
        if allocated0 {
          AliasFreeStep(d0, d1, pool.gpu.draws);
        }
      } else {
        pool.Release(currentFbo);
        next := tanhThresholdFbo;
      }
    }

    /**
     * Iteration `i` of the loop over the draws since `d0`: the round, and the draw log
     * extended by it, superimposed unless it is the last one.
     */
    method LoopStep(pool: FramebufferPool, width: int, height: int, gray: Texture, flow: Texture,
                    inputTextures: seq<Texture>, currentFbo: Framebuffer, i: int, ghost d0: seq<DrawRecord>,
                    ghost allocated0: bool)
      returns (next: Framebuffer)
      requires pool.Valid() && !pool.gpu.contextLost && currentFbo in pool.inUse
      requires pool.gpu.Allocated([gray, flow]) && 0 <= i < iteration && (i < iteration - 1 ==> |inputTextures| >= 1)
      requires d0 <= pool.gpu.draws && |pool.gpu.draws| - |d0| == 6 * i
      requires SuperimposedRounds(pool.gpu.draws[|d0|..], Params(), gray, flow, inputTextures)
      requires allocated0 ==> pool.gpu.Allocated(inputTextures) && AllAliasFree(pool.gpu.draws[|d0|..])
      modifies pool`pool, pool`inUse, pool.gpu`nextTexture, pool.gpu`nextFramebuffer, pool.gpu`trace, pool.gpu`draws
      ensures pool.Valid()
      ensures old(pool.gpu.nextTexture) <= pool.gpu.nextTexture
      ensures && next in pool.pool && Fits(next, width, height, OutputTextureCount(TanhThreshold))
              && next !in old(pool.inUse) - {currentFbo} && pool.inUse == (old(pool.inUse) - {currentFbo}) + {next}
      ensures d0 <= pool.gpu.draws
      ensures i + 1 < iteration ==>
        |pool.gpu.draws| - |d0| == 6 * (i + 1) && SuperimposedRounds(pool.gpu.draws[|d0|..], Params(), gray, flow, inputTextures)
      ensures i + 1 == iteration ==>
        LoopDraws(pool.gpu.draws[|d0|..], iteration, Params(), gray, flow, inputTextures, [gray], next.textures)
      ensures allocated0 ==> AllAliasFree(pool.gpu.draws[|d0|..])
    {
      ghost var d1 := pool.gpu.draws;
      var last := i == iteration - 1;
      next := Iteration(pool, width, height, gray, flow, inputTextures, currentFbo, last);
      if last {
        LoopDrawsFinish(d0, d1, pool.gpu.draws, iteration, Params(), gray, flow, inputTextures, [gray], next.textures);
      } else {
        SuperimposedRoundsExtend(d0, d1, pool.gpu.draws, Params(), gray, flow, inputTextures, next.textures);
      }
      if allocated0 {
        AliasFreeJoin(d0, d1, pool.gpu.draws);
      }
    }

    /**
     * The loop over `iteration` rounds, starting from the grayscale target, which is in
     * use. Every round reads the texture id of that target, which the first round hands
     * back to the pool. The result takes the place of the grayscale target in the in-use set.
     */
    method Loop(pool: FramebufferPool, width: int, height: int, inputTextures: seq<Texture>,
                grayscaleFbo: Framebuffer, flow: Texture)
      returns (currentFbo: Framebuffer)
      requires pool.Valid() && !pool.gpu.contextLost && grayscaleFbo in pool.inUse
      requires Fits(grayscaleFbo, width, height, OutputTextureCount(TanhThreshold)) && pool.gpu.Allocated([flow])
      requires iteration >= 2 ==> |inputTextures| >= 1
      modifies pool`pool, pool`inUse, pool.gpu`nextTexture, pool.gpu`nextFramebuffer, pool.gpu`trace, pool.gpu`draws
      ensures pool.Valid()
      ensures old(pool.gpu.nextTexture) <= pool.gpu.nextTexture
      ensures && currentFbo in pool.pool
              && (iteration < 1 ==> currentFbo == grayscaleFbo)
              && Fits(currentFbo, width, height, OutputTextureCount(TanhThreshold))
              && currentFbo !in old(pool.inUse) - {grayscaleFbo}
              && pool.inUse == (old(pool.inUse) - {grayscaleFbo}) + {currentFbo}
      ensures old(pool.gpu.draws) <= pool.gpu.draws
      ensures LoopDraws(pool.gpu.draws[|old(pool.gpu.draws)|..], iteration, Params(), grayscaleFbo.textures[0], flow,
                        inputTextures, grayscaleFbo.textures, currentFbo.textures)
      ensures old(pool.gpu.Allocated(inputTextures)) ==> AllAliasFree(pool.gpu.draws[|old(pool.gpu.draws)|..])
    {
      ghost var d0 := pool.gpu.draws;
      ghost var base := pool.inUse;
      ghost var allocated0 := pool.gpu.Allocated(inputTextures);
      pool.AttachmentsAllocated(grayscaleFbo);
      var currentInputTextures := grayscaleFbo.GetTextures();
      ghost var grayTextures := grayscaleFbo.textures;
      assert currentInputTextures == grayTextures;
      pool.gpu.AllocatedPair(currentInputTextures, 0, [flow], 0);
      assert currentInputTextures == [currentInputTextures[0]];
      currentFbo := grayscaleFbo;
      var i := 0;
      while i < iteration
        invariant 0 <= i && (i <= iteration || i == 0)
        invariant pool.Valid() && old(pool.gpu.nextTexture) <= pool.gpu.nextTexture
        invariant pool.gpu.Allocated([currentInputTextures[0], flow])
        invariant allocated0 ==> pool.gpu.Allocated(inputTextures)
        invariant currentFbo in pool.pool && currentFbo in pool.inUse
        invariant i == 0 ==> currentFbo == grayscaleFbo && pool.gpu.draws == d0
        invariant Fits(currentFbo, width, height, OutputTextureCount(TanhThreshold))
        invariant currentFbo !in base - {grayscaleFbo} && pool.inUse == (base - {grayscaleFbo}) + {currentFbo}
        invariant d0 <= pool.gpu.draws
        invariant i < iteration ==>
          |pool.gpu.draws| - |d0| == 6 * i
          && SuperimposedRounds(pool.gpu.draws[|d0|..], Params(), currentInputTextures[0], flow, inputTextures)
        invariant i == iteration ==>
          LoopDraws(pool.gpu.draws[|d0|..], iteration, Params(), currentInputTextures[0], flow, inputTextures,
                    currentInputTextures, currentFbo.textures)
        invariant allocated0 ==> AllAliasFree(pool.gpu.draws[|d0|..])
      {
        currentFbo := LoopStep(pool, width, height, currentInputTextures[0], flow, inputTextures, currentFbo, i, d0,
                               allocated0);
        i := i + 1;
      }
      assert LoopDraws(pool.gpu.draws[|d0|..], iteration, Params(), grayscaleFbo.textures[0], flow, inputTextures,
                       grayscaleFbo.textures, currentFbo.textures) by {
        if iteration < 1 {
          assert pool.gpu.draws == d0 && currentFbo == grayscaleFbo;
        } else {
          assert i == iteration && grayTextures == grayscaleFbo.textures;
        }
      }
    }

    /** The edge tangent flow of the inputs, run with this composite's settings. */
    method FlowStage(pool: FramebufferPool, width: int, height: int, inputTextures: seq<Texture>)
      returns (etfFbo: Framebuffer)
      requires pool.Valid() && !pool.gpu.contextLost
      modifies pool`pool, pool`inUse, pool.gpu`nextTexture, pool.gpu`nextFramebuffer, pool.gpu`trace, pool.gpu`draws
      modifies etf`etfKernelSize, etf`etfIteration
      ensures pool.Valid()
      ensures old(pool.gpu.nextTexture) <= pool.gpu.nextTexture
      ensures etfFbo in pool.pool && etfFbo !in old(pool.inUse) && pool.gpu.Allocated(etfFbo.textures)
      ensures etfIteration >= 1 ==> pool.inUse == old(pool.inUse) + {etfFbo}
                                    && Fits(etfFbo, width, height, OutputTextureCount(ETFSmoothing))
      ensures etfIteration < 1 ==> pool.inUse == old(pool.inUse) && Fits(etfFbo, width, height, OutputTextureCount(FlowField))
      ensures old(pool.gpu.draws) <= pool.gpu.draws
      ensures EdgeTangentFlowDraws(pool.gpu.draws[|old(pool.gpu.draws)|..], etfKernelSize, etfIteration, inputTextures,
                                   etfFbo.textures)
      ensures old(pool.gpu.Allocated(inputTextures)) ==> AllAliasFree(pool.gpu.draws[|old(pool.gpu.draws)|..])
    {
      etf.SetUniformValues(etfKernelSize, etfIteration);
      etfFbo := etf.Render(pool, width, height, inputTextures);
      pool.AttachmentsAllocated(etfFbo);
    }

    /** The grayscale pass and the edge tangent flow of the inputs; both targets are left as they come. */
    method FrontStage(pool: FramebufferPool, width: int, height: int, inputTextures: seq<Texture>)
      returns (grayscaleFbo: Framebuffer, etfFbo: Framebuffer)
      requires pool.Valid() && !pool.gpu.contextLost
      modifies pool`pool, pool`inUse, pool.gpu`nextTexture, pool.gpu`nextFramebuffer, pool.gpu`trace, pool.gpu`draws
      modifies etf`etfKernelSize, etf`etfIteration
      ensures pool.Valid()
      ensures old(pool.gpu.nextTexture) <= pool.gpu.nextTexture
      ensures && grayscaleFbo in pool.inUse && Fits(grayscaleFbo, width, height, OutputTextureCount(Grayscale))
              && grayscaleFbo !in old(pool.inUse)
      ensures && etfFbo !in old(pool.inUse) + {grayscaleFbo}
              && (etfIteration >= 1 ==> pool.inUse == old(pool.inUse) + {grayscaleFbo, etfFbo}
                                         && Fits(etfFbo, width, height, OutputTextureCount(ETFSmoothing)))
              && (etfIteration < 1 ==> pool.inUse == old(pool.inUse) + {grayscaleFbo}
                                        && Fits(etfFbo, width, height, OutputTextureCount(FlowField)))
      ensures pool.gpu.Allocated(grayscaleFbo.textures) && pool.gpu.Allocated(etfFbo.textures)
      ensures old(pool.gpu.draws) <= pool.gpu.draws
      ensures FrontDraws(pool.gpu.draws[|old(pool.gpu.draws)|..], etfKernelSize, etfIteration, inputTextures,
                         grayscaleFbo.textures, etfFbo.textures)
      ensures old(pool.gpu.Allocated(inputTextures)) ==> AllAliasFree(pool.gpu.draws[|old(pool.gpu.draws)|..])
    {
      ghost var d0 := pool.gpu.draws;
      grayscaleFbo := WritePass(pool, Grayscale, [], inputTextures, width, height, OutputTextureCount(Grayscale));
      ghost var d1 := pool.gpu.draws;
      pool.AttachmentsAllocated(grayscaleFbo);
      etfFbo := FlowStage(pool, width, height, inputTextures);
      assert FrontDraws(pool.gpu.draws[|d0|..], etfKernelSize, etfIteration, inputTextures, grayscaleFbo.textures,
                        etfFbo.textures) by {
        LogJoin(d0, d1, pool.gpu.draws);
        assert d1[|d0|..] == [DrawRecord(Grayscale, [], inputTextures, grayscaleFbo.textures)];
        FrontJoin(pool.gpu.draws[|d1|..], etfKernelSize, etfIteration, inputTextures, grayscaleFbo.textures,
                  etfFbo.textures);
      }
      if old(pool.gpu.Allocated(inputTextures)) {
        AliasFreeStep(d0, d0, d1);
        AliasFreeJoin(d0, d1, pool.gpu.draws);
      }
    }

    /**
     * The loop along the first attachment of the edge-tangent-flow target, then that
     * target handed back.
     */
    method BackStage(pool: FramebufferPool, width: int, height: int, inputTextures: seq<Texture>,
                     grayscaleFbo: Framebuffer, etfFbo: Framebuffer)
      returns (r: Framebuffer)
      requires pool.Valid() && !pool.gpu.contextLost && grayscaleFbo in pool.inUse
      requires Fits(grayscaleFbo, width, height, OutputTextureCount(TanhThreshold))
      requires pool.gpu.Allocated(etfFbo.textures) && |etfFbo.textures| >= 1
      requires iteration >= 2 ==> |inputTextures| >= 1
      modifies pool`pool, pool`inUse, pool.gpu`nextTexture, pool.gpu`nextFramebuffer, pool.gpu`trace, pool.gpu`draws
      ensures pool.Valid()
      ensures old(pool.gpu.nextTexture) <= pool.gpu.nextTexture
      ensures && r in pool.pool && Fits(r, width, height, OutputTextureCount(TanhThreshold))
              && r !in old(pool.inUse) - {grayscaleFbo}
              && pool.inUse == ((old(pool.inUse) - {grayscaleFbo}) + {r}) - {etfFbo}
      ensures old(pool.gpu.draws) <= pool.gpu.draws
      ensures LoopDraws(pool.gpu.draws[|old(pool.gpu.draws)|..], iteration, Params(), grayscaleFbo.textures[0],
                        etfFbo.textures[EtfXYVector], inputTextures, grayscaleFbo.textures, r.textures)
      ensures old(pool.gpu.Allocated(inputTextures)) ==> AllAliasFree(pool.gpu.draws[|old(pool.gpu.draws)|..])
    {
      var etfTextures := etfFbo.GetTextures();
      assert etfTextures[EtfXYVector] in etfTextures;
      r := Loop(pool, width, height, inputTextures, grayscaleFbo, etfTextures[EtfXYVector]);
      pool.Release(etfFbo);
    }

    /**
     * Runs the composite. Only the result stays in use: the grayscale target when no round
     * runs, the last round's threshold target otherwise; the edge-tangent-flow target and
     * every intermediate target have been handed back.
     */
    method Render(pool: FramebufferPool, width: int, height: int, inputTextures: seq<Texture>)
      returns (r: Framebuffer)
      requires pool.Valid() && !pool.gpu.contextLost
      requires iteration >= 2 ==> |inputTextures| >= 1
      modifies pool`pool, pool`inUse, pool.gpu`nextTexture, pool.gpu`nextFramebuffer, pool.gpu`trace, pool.gpu`draws
      modifies etf`etfKernelSize, etf`etfIteration
      ensures pool.Valid()
      ensures old(pool.gpu.nextTexture) <= pool.gpu.nextTexture
      ensures
        && pool.HandsOut(r, old(pool.inUse), width, height, 1)
        && CLDRun(old(pool.gpu.draws), pool.gpu.draws, etfKernelSize, etfIteration, iteration, Params(),
                  inputTextures, r.textures)
        && (old(pool.gpu.Allocated(inputTextures)) ==> AllAliasFree(pool.gpu.draws[|old(pool.gpu.draws)|..]))
    {
      ghost var d0 := pool.gpu.draws;
      ghost var u0 := pool.inUse;
      var grayscaleFbo, etfFbo := FrontStage(pool, width, height, inputTextures);
      ghost var d2 := pool.gpu.draws;
      ghost var u2 := pool.inUse;
      r := BackStage(pool, width, height, inputTextures, grayscaleFbo, etfFbo);
      CLDInUse(u0, u0 + {grayscaleFbo}, u2, pool.inUse, grayscaleFbo, etfFbo, r);
      CLDAssemble(d0, d2, pool.gpu.draws, etfKernelSize, etfIteration, iteration,
                  Params(), inputTextures, grayscaleFbo.textures, etfFbo.textures, r.textures);
      CLDRunOfSuffix(d0, pool.gpu.draws, etfKernelSize, etfIteration, iteration, Params(), inputTextures, r.textures);
      if old(pool.gpu.Allocated(inputTextures)) {
        AliasFreeJoin(d0, d2, pool.gpu.draws);
      }
    }
  }

  /**
   * The thickness slider is ignored as written: after setUniformValues with thickness 5
   * on a fresh composite, the first edge blur still uses sigma 1.6 while the second uses
   * 5 * 1.6.
   */
  method ThicknessIgnoredAsWritten() returns (edgeBlur1Sigma: real, edgeBlur2Sigma: real)
    ensures edgeBlur1Sigma == 1.6 && edgeBlur2Sigma == 8.0
  {
    var cld := new CompositeShaderCoherentLineDrawing();
    cld.SetUniformValuesAsWritten(5.0, 1.5, 7.0, 0.92, 0.9, 2, 2);
    edgeBlur1Sigma := cld.Params().sigmaC;
    edgeBlur2Sigma := cld.Params().sigmaS;
  }

  /**
   * With the corrected setter the first edge blur's sigma is the thickness and the second
   * one's is the thickness times the scalar, whatever the previous values were.
   */
  method ThicknessFollowed(thickness: real) returns (edgeBlur1Sigma: real, edgeBlur2Sigma: real)
    ensures edgeBlur1Sigma == thickness && edgeBlur2Sigma == thickness * Scalar
  {
    var cld := new CompositeShaderCoherentLineDrawing();
    cld.SetUniformValues(thickness, 1.5, 7.0, 0.92, 0.9, 2, 2);
    edgeBlur1Sigma := cld.Params().sigmaC;
    edgeBlur2Sigma := cld.Params().sigmaS;
  }
}
