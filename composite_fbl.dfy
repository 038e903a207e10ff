/**
 * The flow-based bilateral composite: the edge tangent flow of the image, then
 * `iteration` rounds of a bilateral filter along the flow streamlines followed by one
 * across them (both guided by the flow texture), and a luminance quantization of the
 * last round's image.
 */
module CompositeFBLs {
  import opened Wrappers
  import opened GpuModel
  import opened Framebuffers
  import opened FramebufferPools
  import opened Passes
  import opened CompositeEdgeTangentFlows

  /** The attachment of the edge-tangent-flow result that holds the flow field. */
  const EtfFlowField: nat := 0

  /** The attachment of the streamline bilateral pass that holds the image. */
  const StreamlineImage: nat := 0

  /** The uniform values of the bilateral rounds and of the quantization. */
  datatype FBLParams = FBLParams(sigmaE: real, rangeSigmaE: real, sigmaG: real, rangeSigmaG: real,
                                 colorCount: real)

  /** The image a round reads after the rounds `ds`: the composite's inputs before any round. */
  function CurrentAfter(ds: seq<DrawRecord>, inputs: seq<Texture>): seq<Texture>
  {
    if |ds| == 0 then inputs else ds[|ds| - 1].target
  }

  /**
   * `ds` is a run of bilateral rounds from `inputs` along `flow`: each round draws the
   * streamline bilateral from the first texture of the current image and the flow into one
   * attachment, then the gradient-aligned bilateral from that attachment and the flow into
   * another one, which is the next round's image.
   */
  predicate BilateralRounds(ds: seq<DrawRecord>, p: FBLParams, flow: Texture, inputs: seq<Texture>)
    decreases |ds|
  {
    if |ds| == 0 then true
    else
      && |ds| >= 2
      && BilateralRounds(ds[..|ds| - 2], p, flow, inputs)
      && var current := CurrentAfter(ds[..|ds| - 2], inputs);
      && |current| >= 1
      && ds[|ds| - 2]
         == DrawRecord(StreamlineBilateral, [p.sigmaE, p.rangeSigmaE], [current[0], flow], ds[|ds| - 2].target)
      && |ds[|ds| - 2].target| == OutputTextureCount(StreamlineBilateral)
      && ds[|ds| - 1]
         == DrawRecord(GradientBilateral, [p.sigmaG, p.rangeSigmaG], [ds[|ds| - 2].target[StreamlineImage], flow],
                       ds[|ds| - 1].target)
      && |ds[|ds| - 1].target| == OutputTextureCount(GradientBilateral)
  }

  /**
   * `d` is the bilateral pass after `prev`: the other one of the two kernels, reading the
   * first attachment of `prev` and then the flow.
   */
  predicate Feeds(prev: DrawRecord, d: DrawRecord, flow: Texture)
  {
    && d.kernel == (if prev.kernel == StreamlineBilateral then GradientBilateral else StreamlineBilateral)
    && |prev.target| >= 1 && d.inputs == [prev.target[0], flow]
  }

  /**
   * What the rounds promise: the first pass is a streamline pass reading the first input
   * texture and the flow; every later pass is the other kernel than the one before it and
   * reads that pass's first attachment and the flow; the last pass is a gradient pass.
   */
  lemma {:induction false} BilateralRoundsChain(ds: seq<DrawRecord>, p: FBLParams, flow: Texture, inputs: seq<Texture>)
    requires BilateralRounds(ds, p, flow, inputs)
    ensures |ds| % 2 == 0
    ensures |ds| > 0 ==> ds[0].kernel == StreamlineBilateral && |inputs| >= 1 && ds[0].inputs == [inputs[0], flow]
    ensures |ds| > 0 ==> ds[|ds| - 1].kernel == GradientBilateral
    ensures forall j :: 0 < j < |ds| ==> Feeds(ds[j - 1], ds[j], flow)
    decreases |ds|
  {
    if |ds| > 0 {
      var front := ds[..|ds| - 2];
      BilateralRoundsChain(front, p, flow, inputs);
      var n := |front|;
      assert |ds| == n + 2 && (n + 2) % 2 == n % 2;
      forall j | 0 < j < |ds|
        ensures Feeds(ds[j - 1], ds[j], flow)
      {
        if j < n {
          assert ds[j - 1] == front[j - 1] && ds[j] == front[j];
        } else if j == n {
          assert ds[j - 1] == front[j - 1];
        }
      }
      if n > 0 {
        assert ds[0] == front[0];
      }
    }
  }

  /** Two more draws of the right shape extend a run of rounds. */
  lemma BilateralRoundsExtend(d0: seq<DrawRecord>, d1: seq<DrawRecord>, d2: seq<DrawRecord>, p: FBLParams,
                              flow: Texture, inputs: seq<Texture>, current: seq<Texture>, gradient: seq<Texture>)
    requires d0 <= d1 && BilateralRounds(d1[|d0|..], p, flow, inputs) && current == CurrentAfter(d1[|d0|..], inputs)
    requires |current| >= 1 && BilateralRoundDraws(d1, d2, p, current, flow, gradient) && |gradient| == 1
    ensures d0 <= d2 && BilateralRounds(d2[|d0|..], p, flow, inputs) && |d2[|d0|..]| == |d1[|d0|..]| + 2
    ensures gradient == CurrentAfter(d2[|d0|..], inputs)
  {
    assert d2[|d0|..][..|d2[|d0|..]| - 2] == d1[|d0|..];
  }

  /**
   * The log `after` is `before` followed by one round from `current` along `flow` whose
   * gradient pass drew into `gradient`.
   */
  predicate BilateralRoundDraws(before: seq<DrawRecord>, after: seq<DrawRecord>, p: FBLParams, current: seq<Texture>,
                       flow: Texture, gradient: seq<Texture>)
  {
    && |after| == |before| + 2 && before <= after && |current| >= 1
    && after[|before|]
       == DrawRecord(StreamlineBilateral, [p.sigmaE, p.rangeSigmaE], [current[0], flow], after[|before|].target)
    && |after[|before|].target| == 1
    && after[|before| + 1]
       == DrawRecord(GradientBilateral, [p.sigmaG, p.rangeSigmaG], [after[|before|].target[StreamlineImage], flow],
                     gradient)
  }

  /** A streamline draw followed by a gradient draw reading its attachment form one round. */
  lemma BilateralRoundRecord(d0: seq<DrawRecord>, d1: seq<DrawRecord>, d2: seq<DrawRecord>, p: FBLParams,
                             current: seq<Texture>, flow: Texture, streamline: seq<Texture>, gradient: seq<Texture>)
    requires |current| >= 1 && |streamline| == 1
    requires d1 == d0 + [DrawRecord(StreamlineBilateral, [p.sigmaE, p.rangeSigmaE], [current[0], flow], streamline)]
    requires d2 == d1 + [DrawRecord(GradientBilateral, [p.sigmaG, p.rangeSigmaG], [streamline[0], flow], gradient)]
    ensures BilateralRoundDraws(d0, d2, p, current, flow, gradient)
  {
  }

  /**
   * The draws of one composite run from `inputs` into `out`: the edge-tangent-flow
   * composite, the bilateral rounds along its flow attachment, and the quantization of the
   * last round's image (of the inputs themselves when there is no round).
   */
  predicate FBLDraws(ds: seq<DrawRecord>, etfKernelSize: real, etfIteration: int, iteration: int, p: FBLParams,
                     inputs: seq<Texture>, out: seq<Texture>)
  {
    var n := 2 + 2 * (if etfIteration < 0 then 0 else etfIteration);
    && |ds| == n + 2 * (if iteration < 0 then 0 else iteration) + 1
    && EdgeTangentFlowDraws(ds[..n], etfKernelSize, etfIteration, inputs, ds[n - 1].target)
    && |ds[n - 1].target| >= 1
    && BilateralRounds(ds[n..|ds| - 1], p, ds[n - 1].target[EtfFlowField], inputs)
    && ds[|ds| - 1] == DrawRecord(LuminanceQuantization, [p.colorCount], CurrentAfter(ds[n..|ds| - 1], inputs), out)
  }

  /**
   * The shape of a composite run: every bilateral pass reads the flow attachment of the
   * edge tangent flow last, and the quantization reads the last gradient image, or the
   * inputs directly when there is no round.
   */
  lemma FBLShape(ds: seq<DrawRecord>, etfKernelSize: real, etfIteration: int, iteration: int, p: FBLParams,
                 inputs: seq<Texture>, out: seq<Texture>)
    requires FBLDraws(ds, etfKernelSize, etfIteration, iteration, p, inputs, out)
    ensures var n := 2 + 2 * (if etfIteration < 0 then 0 else etfIteration);
      && (forall j :: n <= j < |ds| - 1 ==> |ds[j].inputs| == 2 && ds[j].inputs[1] == ds[n - 1].target[EtfFlowField])
      && ds[|ds| - 1].kernel == LuminanceQuantization
      && (iteration < 1 ==> ds[|ds| - 1].inputs == inputs)
      && (iteration >= 1 ==> ds[|ds| - 2].kernel == GradientBilateral && ds[|ds| - 1].inputs == ds[|ds| - 2].target)
  {
    var n := 2 + 2 * (if etfIteration < 0 then 0 else etfIteration);
    var rounds := ds[n..|ds| - 1];
    var flow := ds[n - 1].target[EtfFlowField];
    BilateralRoundsChain(rounds, p, flow, inputs);
    forall j | n <= j < |ds| - 1
      ensures |ds[j].inputs| == 2 && ds[j].inputs[1] == flow
    {
      assert ds[j] == rounds[j - n];
      if j > n {
        assert rounds[j - n - 1] == ds[j - 1] && Feeds(rounds[j - n - 1], rounds[j - n], flow);
      }
    }
    if iteration >= 1 {
      assert ds[|ds| - 2] == rounds[|rounds| - 1];
    }
  }

  /**
   * The draws of a run before its quantization: the edge-tangent-flow composite into
   * `etfOut`, then the bilateral rounds along its flow attachment, leaving `current`.
   */
  predicate FlowRoundsDraws(ds: seq<DrawRecord>, etfKernelSize: real, etfIteration: int, iteration: int,
                            p: FBLParams, inputs: seq<Texture>, etfOut: seq<Texture>, current: seq<Texture>)
  {
    var n := 2 + 2 * (if etfIteration < 0 then 0 else etfIteration);
    && |ds| == n + 2 * (if iteration < 0 then 0 else iteration)
    && EdgeTangentFlowDraws(ds[..n], etfKernelSize, etfIteration, inputs, etfOut)
    && |etfOut| >= 1
    && BilateralRounds(ds[n..], p, etfOut[EtfFlowField], inputs)
    && current == CurrentAfter(ds[n..], inputs)
  }

  /** The edge-tangent-flow draws followed by the rounds along its flow. */
  lemma FlowRoundsAssemble(d0: seq<DrawRecord>, d1: seq<DrawRecord>, d2: seq<DrawRecord>, etfKernelSize: real,
                           etfIteration: int, iteration: int, p: FBLParams, inputs: seq<Texture>,
                           etfOut: seq<Texture>, current: seq<Texture>)
    requires d0 <= d1 && EdgeTangentFlowDraws(d1[|d0|..], etfKernelSize, etfIteration, inputs, etfOut)
    requires |etfOut| >= 1
    requires d1 <= d2 && BilateralRounds(d2[|d1|..], p, etfOut[EtfFlowField], inputs)
    requires |d2[|d1|..]| == 2 * (if iteration < 0 then 0 else iteration)
    requires current == CurrentAfter(d2[|d1|..], inputs)
    ensures d0 <= d2 && FlowRoundsDraws(d2[|d0|..], etfKernelSize, etfIteration, iteration, p, inputs, etfOut, current)
  {
    var ds := d2[|d0|..];
    var n := 2 + 2 * (if etfIteration < 0 then 0 else etfIteration);
    assert |d1[|d0|..]| == n;
    assert ds[..n] == d1[|d0|..];
    assert ds[n..] == d2[|d1|..];
  }

  /** The flow and the rounds followed by the quantization of the rounds' image are a composite run. */
  lemma FBLAppend(rs: seq<DrawRecord>, etfKernelSize: real, etfIteration: int, iteration: int, p: FBLParams,
                  inputs: seq<Texture>, etfOut: seq<Texture>, current: seq<Texture>, out: seq<Texture>)
    requires FlowRoundsDraws(rs, etfKernelSize, etfIteration, iteration, p, inputs, etfOut, current)
    ensures FBLDraws(rs + [DrawRecord(LuminanceQuantization, [p.colorCount], current, out)], etfKernelSize,
                     etfIteration, iteration, p, inputs, out)
  {
    var ds := rs + [DrawRecord(LuminanceQuantization, [p.colorCount], current, out)];
    var n := 2 + 2 * (if etfIteration < 0 then 0 else etfIteration);
    assert ds[..n] == rs[..n];
    assert etfOut == ds[n - 1].target by {
      assert ds[n - 1] == rs[..n][n - 1];
    }
    assert ds[n..|ds| - 1] == rs[n..];
  }

  /** The draw log of one composite run: the flow and the rounds, then the quantization. */
  lemma FBLAssemble(d0: seq<DrawRecord>, d2: seq<DrawRecord>, d3: seq<DrawRecord>, etfKernelSize: real,
                    etfIteration: int, iteration: int, p: FBLParams, inputs: seq<Texture>,
                    etfOut: seq<Texture>, current: seq<Texture>, out: seq<Texture>)
    requires d0 <= d2 && FlowRoundsDraws(d2[|d0|..], etfKernelSize, etfIteration, iteration, p, inputs, etfOut, current)
    requires d3 == d2 + [DrawRecord(LuminanceQuantization, [p.colorCount], current, out)]
    ensures d0 <= d3 && FBLDraws(d3[|d0|..], etfKernelSize, etfIteration, iteration, p, inputs, out)
  {
    FBLAppend(d2[|d0|..], etfKernelSize, etfIteration, iteration, p, inputs, etfOut, current, out);
    assert d3[|d0|..] == d2[|d0|..] + [DrawRecord(LuminanceQuantization, [p.colorCount], current, out)];
  }

  /** How one round moves the in-use set. */
  lemma BilateralRoundInUse(u0: set<Framebuffer>, u1: set<Framebuffer>, u2: set<Framebuffer>, u3: set<Framebuffer>,
                   u4: set<Framebuffer>, released: set<Framebuffer>, streamline: Framebuffer, gradient: Framebuffer)
    requires streamline !in u0 && u1 == u0 + {streamline} && u2 == u1 - released && streamline !in released
    requires gradient !in u2 && u3 == u2 + {gradient} && u4 == u3 - {streamline}
    ensures gradient !in u0 - released && u4 == (u0 - released) + {gradient}
  {
  }

  /**
   * The in-use bookkeeping of the start of a run: the edge-tangent-flow target (still in
   * use or not), then the last gradient target (if any).
   */
  lemma FlowInUse(u0: set<Framebuffer>, u1: set<Framebuffer>, u2: set<Framebuffer>, etf: Framebuffer,
                  gradient: set<Framebuffer>)
    requires etf !in u0 && (u1 == u0 || u1 == u0 + {etf}) && gradient !! u1 && u2 == u1 + gradient
    ensures gradient !! u0 && (u2 == u0 + gradient || u2 == u0 + {etf} + gradient)
  {
  }

  /**
   * The draws appended to the log `before` to give `after` are one composite run: `after`
   * extends `before`, and whatever follows `before` in it satisfies FBLDraws.
   */
  ghost predicate FBLRun(before: seq<DrawRecord>, after: seq<DrawRecord>, etfKernelSize: real, etfIteration: int,
                         iteration: int, p: FBLParams, inputs: seq<Texture>, out: seq<Texture>)
  {
    && before <= after
    && forall ds | after == before + ds :: FBLDraws(ds, etfKernelSize, etfIteration, iteration, p, inputs, out)
  }

  /** A run found past the prefix is a run appended to it. */
  lemma FBLRunOfSuffix(before: seq<DrawRecord>, after: seq<DrawRecord>, etfKernelSize: real, etfIteration: int,
                       iteration: int, p: FBLParams, inputs: seq<Texture>, out: seq<Texture>)
    requires before <= after
    requires FBLDraws(after[|before|..], etfKernelSize, etfIteration, iteration, p, inputs, out)
    ensures FBLRun(before, after, etfKernelSize, etfIteration, iteration, p, inputs, out)
  {
    forall ds | after == before + ds
      ensures FBLDraws(ds, etfKernelSize, etfIteration, iteration, p, inputs, out)
    {
      assert ds == after[|before|..];
    }
  }

  /**
   * The in-use bookkeeping of one composite run: the edge-tangent-flow target (still in
   * use or not) and the last gradient target (if any) both handed back, then the
   * quantization target taken.
   */
  lemma FBLInUse(u0: set<Framebuffer>, u2: set<Framebuffer>, u3: set<Framebuffer>, etf: Framebuffer,
                 gradient: set<Framebuffer>, quantization: Framebuffer)
    requires etf !in u0 && gradient !! u0 && (u2 == u0 + gradient || u2 == u0 + {etf} + gradient)
    requires quantization !in u2 - ({etf} + gradient) && u3 == (u2 - ({etf} + gradient)) + {quantization}
    ensures quantization !in u0 && u3 == u0 + {quantization}
  {
  }

  class CompositeShaderFBL {
    const etf: CompositeShaderEdgeTangentFlow
    var iteration: int
    var sigmaE: real
    var rangeSigmaE: real
    var sigmaG: real
    var rangeSigmaG: real
    var colorCount: real
    var etfKernelSize: real
    var etfIteration: int

    constructor ()
      ensures iteration == 1 && sigmaE == 1.0 && rangeSigmaE == 1.0 && sigmaG == 1.0 && rangeSigmaG == 1.0
      ensures colorCount == 2.0 && etfKernelSize == 3.0 && etfIteration == 2
      ensures fresh(etf)
    {
      etf := new CompositeShaderEdgeTangentFlow();
      iteration := 1;
      sigmaE := 1.0;
      rangeSigmaE := 1.0;
      sigmaG := 1.0;
      rangeSigmaG := 1.0;
      colorCount := 2.0;
      etfKernelSize := 3.0;
      etfIteration := 2;
    }

    method SetUniformValues(etfKernelSize: real, sigmaE: real, sigmaG: real, rangeSigmaE: real, rangeSigmaG: real,
                            iteration: int, etfIteration: int, colorCount: real)
      modifies this`iteration, this`etfIteration, this`sigmaE, this`rangeSigmaE, this`sigmaG, this`rangeSigmaG
      modifies this`etfKernelSize, this`colorCount
      ensures this.etfKernelSize == etfKernelSize && this.sigmaE == sigmaE && this.sigmaG == sigmaG
      ensures this.rangeSigmaE == rangeSigmaE && this.rangeSigmaG == rangeSigmaG && this.iteration == iteration
      ensures this.etfIteration == etfIteration && this.colorCount == colorCount
    {
      this.iteration := iteration;
      this.etfIteration := etfIteration;
      this.sigmaE := sigmaE;
      this.rangeSigmaE := rangeSigmaE;
      this.sigmaG := sigmaG;
      this.rangeSigmaG := rangeSigmaG;
      this.etfKernelSize := etfKernelSize;
      this.colorCount := colorCount;
    }

    /** The uniform values the next render uses. */
    function Params(): FBLParams
      reads this
    {
      FBLParams(sigmaE, rangeSigmaE, sigmaG, rangeSigmaG, colorCount)
    }

    /**
     * The first half of a loop iteration: the streamline bilateral of the first texture of
     * `current` along `flow`, then the previous gradient target (if any) handed back.
     */
    method StreamlineStep(pool: FramebufferPool, width: int, height: int, current: seq<Texture>, flow: Texture,
                          previous: Option<Framebuffer>) returns (s: Framebuffer)
      requires pool.Valid() && !pool.gpu.contextLost && |current| >= 1 && pool.gpu.Allocated([flow])
      requires previous.Some? ==> previous.value in pool.inUse
      modifies pool`pool, pool`inUse, pool.gpu`nextTexture, pool.gpu`nextFramebuffer, pool.gpu`trace, pool.gpu`draws
      ensures pool.Valid() && pool.gpu.Allocated([flow])
      ensures old(pool.gpu.nextTexture) <= pool.gpu.nextTexture
      ensures var released := if previous.Some? then {previous.value} else {};
        && s in pool.inUse && Fits(s, width, height, OutputTextureCount(StreamlineBilateral))
        && s !in old(pool.inUse) - released && pool.inUse == (old(pool.inUse) - released) + {s}
      ensures pool.gpu.draws
              == old(pool.gpu.draws) + [DrawRecord(StreamlineBilateral, [sigmaE, rangeSigmaE], [current[0], flow], s.textures)]
      ensures old(pool.gpu.Allocated(current)) ==> SharesNone(s, [current[0], flow])
    {
      if pool.gpu.Allocated(current) {
        pool.gpu.AllocatedPair(current, 0, [flow], 0);
      }
      // Bilateral filter along the streamline of the flow
      var streamlineBilateralInputTextures := [current[0], flow];
      s := WritePass(pool, StreamlineBilateral, [sigmaE, rangeSigmaE], streamlineBilateralInputTextures, width, height,
                     OutputTextureCount(StreamlineBilateral));
      // The previous gradient target
      if previous.Some? {
        pool.Release(previous.value);
      }
      assert flow in [flow];
    }

    /**
     * The second half of a loop iteration: the gradient-aligned bilateral of the image of
     * the streamline target `s` along `flow`, then `s` handed back.
     */
    method GradientStep(pool: FramebufferPool, width: int, height: int, s: Framebuffer, flow: Texture)
      returns (r: Framebuffer)
      requires pool.Valid() && !pool.gpu.contextLost && pool.gpu.Allocated([flow])
      requires s in pool.inUse && |s.textures| == OutputTextureCount(StreamlineBilateral)
      modifies pool`pool, pool`inUse, pool.gpu`nextTexture, pool.gpu`nextFramebuffer, pool.gpu`trace, pool.gpu`draws
      ensures pool.Valid()
      ensures old(pool.gpu.nextTexture) <= pool.gpu.nextTexture
      ensures && r in pool.pool && Fits(r, width, height, OutputTextureCount(GradientBilateral))
              && r !in old(pool.inUse) && pool.inUse == (old(pool.inUse) - {s}) + {r}
      ensures pool.gpu.draws
              == old(pool.gpu.draws) + [DrawRecord(GradientBilateral, [sigmaG, rangeSigmaG], [s.textures[StreamlineImage], flow], r.textures)]
      ensures SharesNone(r, [s.textures[StreamlineImage], flow])
    {
      var streamLineBilateralTexture := s.GetTextures()[StreamlineImage];
      pool.AttachmentsAllocated(s);
      pool.gpu.AllocatedPair(s.textures, 0, [flow], 0);
      // Bilateral filter across it
      var gradientBilateralInputTextures := [streamLineBilateralTexture, flow];
      r := WritePass(pool, GradientBilateral, [sigmaG, rangeSigmaG], gradientBilateralInputTextures, width, height,
                     OutputTextureCount(GradientBilateral));
      pool.Release(s);
    }

    /**
     * One iteration of the loop: the streamline bilateral of the first texture of `current`,
     * the previous gradient target (if any) handed back, the gradient bilateral of the
     * streamline image, and the streamline target handed back.
     */
    method BilateralRound(pool: FramebufferPool, width: int, height: int, current: seq<Texture>, flow: Texture,
                          previous: Option<Framebuffer>) returns (r: Framebuffer)
      requires pool.Valid() && !pool.gpu.contextLost && |current| >= 1 && pool.gpu.Allocated([flow])
      requires previous.Some? ==> previous.value in pool.inUse
      modifies pool`pool, pool`inUse, pool.gpu`nextTexture, pool.gpu`nextFramebuffer, pool.gpu`trace, pool.gpu`draws
      ensures pool.Valid()
      ensures old(pool.gpu.nextTexture) <= pool.gpu.nextTexture
      ensures var released := if previous.Some? then {previous.value} else {};
        && r in pool.pool && Fits(r, width, height, OutputTextureCount(GradientBilateral))
        && r !in old(pool.inUse) - released && pool.inUse == (old(pool.inUse) - released) + {r}
      ensures BilateralRoundDraws(old(pool.gpu.draws), pool.gpu.draws, Params(), current, flow, r.textures)
      ensures old(pool.gpu.Allocated(current)) ==>
        AliasFree(pool.gpu.draws[|old(pool.gpu.draws)|]) && AliasFree(pool.gpu.draws[|old(pool.gpu.draws)| + 1])
    {
      ghost var d0 := pool.gpu.draws;
      var streamLineBilateralFbo := StreamlineStep(pool, width, height, current, flow, previous);
      ghost var d1 := pool.gpu.draws;
      r := GradientStep(pool, width, height, streamLineBilateralFbo, flow);
      BilateralRoundRecord(d0, d1, pool.gpu.draws, Params(), current, flow, streamLineBilateralFbo.textures, r.textures);
    }

    /**
     * The bilateral loop along `flow`. It returns the image the quantization reads and the
     * last gradient target, which is still in use (none when the loop does not run).
     */
    method BilateralLoop(pool: FramebufferPool, width: int, height: int, inputTextures: seq<Texture>, flow: Texture)
      returns (currentTexture: seq<Texture>, gradientBilateralFbo: Option<Framebuffer>)
      requires pool.Valid() && !pool.gpu.contextLost && pool.gpu.Allocated([flow])
      requires iteration >= 1 ==> |inputTextures| >= 1
      modifies pool`pool, pool`inUse, pool.gpu`nextTexture, pool.gpu`nextFramebuffer, pool.gpu`trace, pool.gpu`draws
      ensures pool.Valid()
      ensures old(pool.gpu.nextTexture) <= pool.gpu.nextTexture
      ensures gradientBilateralFbo.Some? <==> iteration >= 1
      ensures var g := if gradientBilateralFbo.Some? then {gradientBilateralFbo.value} else {};
        g !! old(pool.inUse) && pool.inUse == old(pool.inUse) + g
      ensures gradientBilateralFbo.Some? ==>
        && gradientBilateralFbo.value in pool.pool
        && Fits(gradientBilateralFbo.value, width, height, OutputTextureCount(GradientBilateral))
        && currentTexture == gradientBilateralFbo.value.textures
      ensures gradientBilateralFbo.None? ==> currentTexture == inputTextures
      ensures
        && old(pool.gpu.draws) <= pool.gpu.draws
        && BilateralRounds(pool.gpu.draws[|old(pool.gpu.draws)|..], Params(), flow, inputTextures)
        && |pool.gpu.draws[|old(pool.gpu.draws)|..]| == 2 * (if iteration < 0 then 0 else iteration)
        && currentTexture == CurrentAfter(pool.gpu.draws[|old(pool.gpu.draws)|..], inputTextures)
      ensures old(pool.gpu.Allocated(inputTextures)) ==> AllAliasFree(pool.gpu.draws[|old(pool.gpu.draws)|..])
    {
      ghost var d0 := pool.gpu.draws;
      ghost var base := pool.inUse;
      ghost var allocated0 := pool.gpu.Allocated(inputTextures);
      currentTexture := inputTextures;
      gradientBilateralFbo := None;
      var i := 0;
      while i < iteration
        invariant 0 <= i && (i <= iteration || i == 0)
        invariant pool.Valid() && old(pool.gpu.nextTexture) <= pool.gpu.nextTexture
        invariant pool.gpu.Allocated([flow]) && (allocated0 ==> pool.gpu.Allocated(inputTextures))
        invariant i == 0 ==> gradientBilateralFbo.None? && currentTexture == inputTextures
        invariant i > 0 ==>
          && gradientBilateralFbo.Some? && gradientBilateralFbo.value in pool.pool
          && gradientBilateralFbo.value !in base
          && Fits(gradientBilateralFbo.value, width, height, OutputTextureCount(GradientBilateral))
          && currentTexture == gradientBilateralFbo.value.textures
        invariant pool.inUse == base + (if i == 0 then {} else {gradientBilateralFbo.value})
        invariant d0 <= pool.gpu.draws && BilateralRounds(pool.gpu.draws[|d0|..], Params(), flow, inputTextures)
        invariant |pool.gpu.draws[|d0|..]| == 2 * i
        invariant currentTexture == CurrentAfter(pool.gpu.draws[|d0|..], inputTextures)
        invariant allocated0 ==> AllAliasFree(pool.gpu.draws[|d0|..])
      {
        ghost var d1 := pool.gpu.draws;
        if i > 0 {
          pool.AttachmentsAllocated(gradientBilateralFbo.value);
        }
        var r := BilateralRound(pool, width, height, currentTexture, flow, gradientBilateralFbo);
        BilateralRoundsExtend(d0, d1, pool.gpu.draws, Params(), flow, inputTextures, currentTexture, r.textures);
        if allocated0 {
          AliasFreeTwoSteps(d0, d1, pool.gpu.draws);
        }
        gradientBilateralFbo := Some(r);
        currentTexture := r.GetTextures();
        i := i + 1;
      }
    }

    /**
     * The edge tangent flow of the image, with this composite's kernel size and number
     * of smoothing rounds. Its target has a first attachment, a texture of the context.
     */
    method EdgeTangentFlowStage(pool: FramebufferPool, width: int, height: int, inputTextures: seq<Texture>)
      returns (etfFbo: Framebuffer, flowfieldTexture: Texture)
      requires pool.Valid() && !pool.gpu.contextLost
      modifies pool`pool, pool`inUse, pool.gpu`nextTexture, pool.gpu`nextFramebuffer, pool.gpu`trace, pool.gpu`draws
      modifies etf`etfKernelSize, etf`etfIteration
      ensures pool.Valid()
      ensures old(pool.gpu.nextTexture) <= pool.gpu.nextTexture
      ensures etfFbo !in old(pool.inUse) && (pool.inUse == old(pool.inUse) || pool.inUse == old(pool.inUse) + {etfFbo})
      ensures |etfFbo.textures| >= 1 && flowfieldTexture == etfFbo.textures[EtfFlowField]
      ensures pool.gpu.Allocated([flowfieldTexture])
      ensures old(pool.gpu.draws) <= pool.gpu.draws
      ensures EdgeTangentFlowDraws(pool.gpu.draws[|old(pool.gpu.draws)|..], etfKernelSize, etfIteration, inputTextures,
                                   etfFbo.textures)
      ensures old(pool.gpu.Allocated(inputTextures)) ==> AllAliasFree(pool.gpu.draws[|old(pool.gpu.draws)|..])
    {
      etf.SetUniformValues(etfKernelSize, etfIteration);
      etfFbo := etf.Render(pool, width, height, inputTextures);
      flowfieldTexture := etfFbo.GetTextures()[EtfFlowField];
      pool.AttachmentsAllocated(etfFbo);
      assert flowfieldTexture in etfFbo.textures;
    }

    /**
     * The start of a run: the edge tangent flow of the image, then the bilateral loop along
     * its flow attachment. It returns the edge-tangent-flow target, the image the
     * quantization reads and the last gradient target.
     */
    method FlowStage(pool: FramebufferPool, width: int, height: int, inputTextures: seq<Texture>)
      returns (etfFbo: Framebuffer, currentTexture: seq<Texture>, gradientBilateralFbo: Option<Framebuffer>)
      requires pool.Valid() && !pool.gpu.contextLost
      requires iteration >= 1 ==> |inputTextures| >= 1
      modifies pool`pool, pool`inUse, pool.gpu`nextTexture, pool.gpu`nextFramebuffer, pool.gpu`trace, pool.gpu`draws
      modifies etf`etfKernelSize, etf`etfIteration
      ensures pool.Valid()
      ensures old(pool.gpu.nextTexture) <= pool.gpu.nextTexture
      ensures etfFbo !in old(pool.inUse)
      ensures var g := if gradientBilateralFbo.Some? then {gradientBilateralFbo.value} else {};
        && g !! old(pool.inUse)
        && (pool.inUse == old(pool.inUse) + g || pool.inUse == old(pool.inUse) + {etfFbo} + g)
      ensures gradientBilateralFbo.Some? ==>
        gradientBilateralFbo.value in pool.pool && currentTexture == gradientBilateralFbo.value.textures
      ensures gradientBilateralFbo.None? ==> currentTexture == inputTextures
      ensures old(pool.gpu.draws) <= pool.gpu.draws
      ensures FlowRoundsDraws(pool.gpu.draws[|old(pool.gpu.draws)|..], etfKernelSize, etfIteration, iteration, Params(),
                              inputTextures, etfFbo.textures, currentTexture)
      ensures old(pool.gpu.Allocated(inputTextures)) ==> AllAliasFree(pool.gpu.draws[|old(pool.gpu.draws)|..])
    {
      ghost var d0 := pool.gpu.draws;
      ghost var allocated0 := pool.gpu.Allocated(inputTextures);
      // The edge tangent flow of the image
      var flowfieldTexture;
      etfFbo, flowfieldTexture := EdgeTangentFlowStage(pool, width, height, inputTextures);
      ghost var d1 := pool.gpu.draws;
      ghost var u1 := pool.inUse;
      currentTexture, gradientBilateralFbo := BilateralLoop(pool, width, height, inputTextures, flowfieldTexture);
      FlowInUse(old(pool.inUse), u1, pool.inUse, etfFbo,
                if gradientBilateralFbo.Some? then {gradientBilateralFbo.value} else {});
      FlowRoundsAssemble(d0, d1, pool.gpu.draws, etfKernelSize, etfIteration, iteration, Params(), inputTextures,
                         etfFbo.textures, currentTexture);
      if allocated0 {
        AliasFreeJoin(d0, d1, pool.gpu.draws);
      }
    }

    /**
     * The end of a run: the edge-tangent-flow target handed back, the last gradient
     * target (if any) handed back, and the luminance quantization of `currentTexture`.
     */
    method QuantizeStage(pool: FramebufferPool, width: int, height: int, etfFbo: Framebuffer,
                         currentTexture: seq<Texture>, gradientBilateralFbo: Option<Framebuffer>)
      returns (r: Framebuffer)
      requires pool.Valid() && !pool.gpu.contextLost
      requires gradientBilateralFbo.Some? ==>
        gradientBilateralFbo.value in pool.pool && currentTexture == gradientBilateralFbo.value.textures
      modifies pool`pool, pool`inUse, pool.gpu`nextTexture, pool.gpu`nextFramebuffer, pool.gpu`trace, pool.gpu`draws
      ensures pool.Valid()
      ensures old(pool.gpu.nextTexture) <= pool.gpu.nextTexture
      ensures var held := {etfFbo} + (if gradientBilateralFbo.Some? then {gradientBilateralFbo.value} else {});
        && r in pool.pool && Fits(r, width, height, OutputTextureCount(LuminanceQuantization))
        && r !in old(pool.inUse) - held && pool.inUse == (old(pool.inUse) - held) + {r}
      ensures pool.gpu.draws
              == old(pool.gpu.draws) + [DrawRecord(LuminanceQuantization, [colorCount], currentTexture, r.textures)]
      ensures old(pool.gpu.Allocated(currentTexture)) || gradientBilateralFbo.Some? ==> SharesNone(r, currentTexture)
    {
      pool.Release(etfFbo);
      if gradientBilateralFbo.Some? {
        pool.Release(gradientBilateralFbo.value);
        pool.AttachmentsAllocated(gradientBilateralFbo.value);
      }
      r := WritePass(pool, LuminanceQuantization, [colorCount], currentTexture, width, height,
                     OutputTextureCount(LuminanceQuantization));
    }

    /**
     * Runs the composite. The quantization target is the only one left in use: the
     * edge-tangent-flow target and the last gradient target have both been handed back,
     * although the quantization still reads the latter's attachment.
     */
    method Render(pool: FramebufferPool, width: int, height: int, inputTextures: seq<Texture>)
      returns (r: Framebuffer)
      requires pool.Valid() && !pool.gpu.contextLost
      requires iteration >= 1 ==> |inputTextures| >= 1
      modifies pool`pool, pool`inUse, pool.gpu`nextTexture, pool.gpu`nextFramebuffer, pool.gpu`trace, pool.gpu`draws
      modifies etf`etfKernelSize, etf`etfIteration
      ensures pool.Valid()
      ensures old(pool.gpu.nextTexture) <= pool.gpu.nextTexture
      ensures
        && pool.HandsOut(r, old(pool.inUse), width, height, OutputTextureCount(LuminanceQuantization))
        && FBLRun(old(pool.gpu.draws), pool.gpu.draws, etfKernelSize, etfIteration, iteration, Params(),
                  inputTextures, r.textures)
        && (old(pool.gpu.Allocated(inputTextures)) ==> AllAliasFree(pool.gpu.draws[|old(pool.gpu.draws)|..]))
    {
      ghost var d0 := pool.gpu.draws;
      ghost var u0 := pool.inUse;
      ghost var allocated0 := pool.gpu.Allocated(inputTextures);
      var etfFbo, currentTexture, gradientBilateralFbo := FlowStage(pool, width, height, inputTextures);
      ghost var d2 := pool.gpu.draws;
      ghost var u2 := pool.inUse;
      r := QuantizeStage(pool, width, height, etfFbo, currentTexture, gradientBilateralFbo);
      FBLInUse(u0, u2, pool.inUse, etfFbo, if gradientBilateralFbo.Some? then {gradientBilateralFbo.value} else {}, r);
      FBLAssemble(d0, d2, pool.gpu.draws, etfKernelSize, etfIteration, iteration, Params(), inputTextures,
                  etfFbo.textures, currentTexture, r.textures);
      FBLRunOfSuffix(d0, pool.gpu.draws, etfKernelSize, etfIteration, iteration, Params(), inputTextures,
                     r.textures);
      if allocated0 {
        AliasFreeStep(d0, d2, pool.gpu.draws);
      }
    }
  }
}
