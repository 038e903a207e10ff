/**
 * The extended difference-of-Gaussians composite: Lab conversion, the eigenvector flow
 * of the lightness, two flow-aligned edge blurs of different widths, their weighted
 * difference, a streamline blur, a soft threshold, and an antialiasing streamline blur.
 */
module CompositeXDoGs {
  import opened Wrappers
  import opened GpuModel
  import opened Framebuffers
  import opened FramebufferPools
  import opened Passes
  import opened CompositeGaussianBlurs
  import opened CompositeEigenvectors

  /** The eigenvector attachment that holds the xy flow map. */
  const XyFlowMap: nat := 1

  /** The scale of the second edge blur's sigma. */
  const K: real := 1.6

  /**
   * The two edge blurs of `inputs` (sigma and sigma * k), each into one attachment, and
   * the difference of the two, weighted by `tau`, into `out`.
   */
  predicate DifferenceDraws(ds: seq<DrawRecord>, sigmaE: real, k: real, tau: real, inputs: seq<Texture>,
                            out: seq<Texture>)
  {
    && |ds| == 3
    && ds[0] == DrawRecord(EdgeBlur, [sigmaE], inputs, ds[0].target) && |ds[0].target| == 1
    && ds[1] == DrawRecord(EdgeBlur, [sigmaE * k], inputs, ds[1].target) && |ds[1].target| == 1
    && ds[2] == DrawRecord(XDoGSubtract, [tau], ds[0].target + ds[1].target, out)
  }

  /** The streamline blur of `inputs` along `flow`, and the threshold of it into `out`. */
  predicate ThresholdDraws(ds: seq<DrawRecord>, sigmaM: real, epsilon: real, phi: real, inputs: seq<Texture>,
                           flow: Texture, out: seq<Texture>)
  {
    && |ds| == 2
    && ds[0] == DrawRecord(StreamlineBlur, [sigmaM], inputs + [flow], ds[0].target) && |ds[0].target| == 1
    && ds[1] == DrawRecord(XDoGThreshold, [epsilon, phi], ds[0].target, out)
  }

  /**
   * The threshold stage on `inputs`, and the antialiasing streamline blur of its output
   * along `flow` into `out`.
   */
  predicate BackDraws(ds: seq<DrawRecord>, sigmaM: real, epsilon: real, phi: real, sigmaA: real,
                      inputs: seq<Texture>, flow: Texture, out: seq<Texture>)
  {
    && |ds| == 3
    && ThresholdDraws(ds[..2], sigmaM, epsilon, phi, inputs, flow, ds[1].target) && |ds[1].target| == 1
    && ds[2] == DrawRecord(StreamlineBlur, [sigmaA], ds[1].target + [flow], out)
  }

  /**
   * Everything after the eigenvector composite: the difference stage on the lightness `lab`
   * and the flow map, then the threshold stage and the antialiasing blur into `out`.
   */
  predicate FlowGuidedDraws(ds: seq<DrawRecord>, p: XDoGParams, lab: seq<Texture>, flow: Texture, out: seq<Texture>)
  {
    && |ds| == 6
    && DifferenceDraws(ds[..3], p.sigmaE, K, p.tau, lab + [flow], ds[2].target) && |ds[2].target| == 1
    && BackDraws(ds[3..], p.sigmaM, p.epsilon, p.phi, p.sigmaA, ds[2].target, flow, out)
  }

  /** The uniform values of one composite run. */
  datatype XDoGParams = XDoGParams(sigmaC: real, sigmaE: real, sigmaM: real, sigmaA: real, tau: real,
                                   phi: real, epsilon: real)

  /**
   * The eleven draws of one composite run from `inputs` into `out`: the Lab pass, the
   * eigenvector composite of the lightness, the difference stage on the lightness and
   * the flow map, the threshold stage, and the antialiasing blur along the same flow map.
   */
  predicate XDoGDraws(ds: seq<DrawRecord>, p: XDoGParams, inputs: seq<Texture>, out: seq<Texture>)
  {
    && |ds| == 11
    && ds[0] == DrawRecord(Lab, [], inputs, ds[0].target) && |ds[0].target| == 1
    && EigenvectorDraws(ds[1..5], p.sigmaC, ds[0].target, ds[4].target) && |ds[4].target| == 2
    && FlowGuidedDraws(ds[5..], p, ds[0].target, ds[4].target[XyFlowMap], out)
  }

  /**
   * The pass order of the composite, and the fact that every flow-guided pass (both edge
   * blurs and both streamline blurs) reads the xy flow map of the eigenvector pass last.
   */
  lemma XDoGShape(ds: seq<DrawRecord>, p: XDoGParams, inputs: seq<Texture>, out: seq<Texture>)
    requires XDoGDraws(ds, p, inputs, out)
    ensures && ds[0].kernel == Lab && ds[1].kernel == StructuredTensor && ds[2].kernel == GaussianBlurPass
            && ds[3].kernel == GaussianBlurPass && ds[4].kernel == Eigenvector && ds[5].kernel == EdgeBlur
            && ds[6].kernel == EdgeBlur && ds[7].kernel == XDoGSubtract && ds[8].kernel == StreamlineBlur
            && ds[9].kernel == XDoGThreshold && ds[10].kernel == StreamlineBlur
    ensures var flow := ds[4].target[XyFlowMap];
      && ds[5].inputs == ds[6].inputs == ds[0].target + [flow]
      && ds[8].inputs == ds[7].target + [flow] && ds[10].inputs == ds[9].target + [flow]
    ensures ds[7].inputs == ds[5].target + ds[6].target && ds[9].inputs == ds[8].target
  {
    var e := ds[1..5];
    assert e[1..3][0] == ds[2] && e[1..3][1] == ds[3];
    var f := ds[5..][..3];
    var g := ds[5..][3..];
    assert f[0] == ds[5] && f[1] == ds[6] && f[2] == ds[7];
    assert g[..2][0] == ds[8] && g[..2][1] == ds[9] && g[2] == ds[10];
  }

  lemma FlowGuidedAssemble(d0: seq<DrawRecord>, d1: seq<DrawRecord>, d2: seq<DrawRecord>, p: XDoGParams,
                           lab: seq<Texture>, flow: Texture, difference: seq<Texture>, out: seq<Texture>)
    requires d0 <= d1 && DifferenceDraws(d1[|d0|..], p.sigmaE, K, p.tau, lab + [flow], difference)
    requires |difference| == 1
    requires d1 <= d2 && BackDraws(d2[|d1|..], p.sigmaM, p.epsilon, p.phi, p.sigmaA, difference, flow, out)
    ensures d0 <= d2 && FlowGuidedDraws(d2[|d0|..], p, lab, flow, out)
  {
    var ds := d2[|d0|..];
    assert ds[..3] == d1[|d0|..];
    assert ds[3..] == d2[|d1|..];
  }

  lemma XDoGAssemble(d0: seq<DrawRecord>, d1: seq<DrawRecord>, d2: seq<DrawRecord>, p: XDoGParams,
                     inputs: seq<Texture>, lab: seq<Texture>, eigen: seq<Texture>, out: seq<Texture>)
    requires d0 <= d1 && |d1| == |d0| + 5 && d1[|d0|] == DrawRecord(Lab, [], inputs, lab) && |lab| == 1
    requires EigenvectorDraws(d1[|d0| + 1..], p.sigmaC, lab, eigen) && |eigen| == 2
    requires d1 <= d2 && FlowGuidedDraws(d2[|d1|..], p, lab, eigen[XyFlowMap], out)
    ensures d0 <= d2 && XDoGDraws(d2[|d0|..], p, inputs, out)
  {
    var ds := d2[|d0|..];
    assert ds[1..5] == d1[|d0| + 1..];
    assert ds[5..] == d2[|d1|..];
  }

  /** The in-use bookkeeping of one composite run. */
  lemma XDoGInUse(u0: set<Framebuffer>, u1: set<Framebuffer>, u2: set<Framebuffer>, lab: Framebuffer,
                  etf: Framebuffer, antialiasing: Framebuffer)
    requires lab !in u0 && etf !in u0 && u1 == u0 + {lab, etf}
    requires antialiasing !in u1 - {lab} && u2 == (u1 - {lab, etf}) + {antialiasing}
    ensures antialiasing !in u0 && u2 == u0 + {antialiasing}
  {
  }

  /**
   * The draws appended to the log `before` to give `after` are one composite run: `after`
   * extends `before`, and whatever follows `before` in it satisfies XDoGDraws.
   */
  ghost predicate XDoGRun(before: seq<DrawRecord>, after: seq<DrawRecord>, p: XDoGParams,
                          inputs: seq<Texture>, out: seq<Texture>)
  {
    && before <= after
    && forall ds | after == before + ds :: XDoGDraws(ds, p, inputs, out)
  }

  /** A run found past the prefix is a run appended to it. */
  lemma XDoGRunOfSuffix(before: seq<DrawRecord>, after: seq<DrawRecord>, p: XDoGParams,
                        inputs: seq<Texture>, out: seq<Texture>)
    requires before <= after
    requires XDoGDraws(after[|before|..], p, inputs, out)
    ensures XDoGRun(before, after, p, inputs, out)
  {
    forall ds | after == before + ds
      ensures XDoGDraws(ds, p, inputs, out)
    {
      assert ds == after[|before|..];
    }
  }

  /** The in-use bookkeeping after the eigenvector composite. */
  lemma FlowGuidedInUse(u0: set<Framebuffer>, u1: set<Framebuffer>, u2: set<Framebuffer>, u3: set<Framebuffer>,
                        lab: Framebuffer, etf: Framebuffer, difference: Framebuffer, antialiasing: Framebuffer)
    requires lab in u0 && etf in u0 && lab != etf
    requires difference !in u0 - {lab} && u1 == (u0 - {lab}) + {difference}
    requires antialiasing !in u1 - {difference} && u2 == (u1 - {difference}) + {antialiasing}
    requires u3 == u2 - {etf}
    ensures antialiasing !in u0 - {lab} && u3 == (u0 - {lab, etf}) + {antialiasing}
  {
  }

  lemma PairInUse(u0: set<Framebuffer>, u1: set<Framebuffer>, u2: set<Framebuffer>, a: Framebuffer, b: Framebuffer)
    requires a !in u0 && u1 == u0 + {a} && b !in u1 && u2 == u1 + {b}
    ensures a != b && a !in u0 && b !in u0 && u2 == u0 + {a, b}
  {
  }

  lemma SwapInUse(u0: set<Framebuffer>, u1: set<Framebuffer>, u2: set<Framebuffer>, u3: set<Framebuffer>,
                  u4: set<Framebuffer>, old1: Framebuffer, new1: Framebuffer, new2: Framebuffer)
    requires new1 !in u0 && u1 == u0 + {new1} && u2 == u1 - {old1} && old1 != new1
    requires new2 !in u2 && u3 == u2 + {new2} && u4 == u3 - {new1}
    ensures new2 !in u0 - {old1} && u4 == (u0 - {old1}) + {new2}
  {
  }

  lemma BackInUse(u0: set<Framebuffer>, u1: set<Framebuffer>, u2: set<Framebuffer>, u3: set<Framebuffer>,
                  difference: Framebuffer, threshold: Framebuffer, antialiasing: Framebuffer)
    requires threshold !in u0 - {difference} && u1 == (u0 - {difference}) + {threshold}
    requires antialiasing !in u1 && u2 == u1 + {antialiasing} && u3 == u2 - {threshold}
    ensures antialiasing !in u0 - {difference} && u3 == (u0 - {difference}) + {antialiasing}
  {
  }

  lemma DifferenceInUse(u0: set<Framebuffer>, u1: set<Framebuffer>, u2: set<Framebuffer>, u3: set<Framebuffer>,
                        lab: Framebuffer, b1: Framebuffer, b2: Framebuffer, s: Framebuffer)
    requires b1 != b2 && b1 !in u0 && b2 !in u0 && u1 == u0 + {b1, b2} && u2 == u1 - {lab} && lab in u0
    requires s !in u2 && u3 == (u2 - {b1, b2}) + {s}
    ensures s !in u0 - {lab} && u3 == (u0 - {lab}) + {s}
  {
  }

  class CompositeShaderXDoG {
    const etfEigenvector: CompositeShaderETFEigenvector
    const k: real := K
    var sigmaE: real
    var sigmaC: real
    var sigmaM: real
    var sigmaA: real
    var phi: real
    var epsilon: real
    var tau: real

    constructor ()
      ensures sigmaE == 1.0 && sigmaC == 1.6 && sigmaM == 1.0 && sigmaA == 1.0
      ensures phi == 1.0 && epsilon == 0.9 && tau == 1.0
      ensures fresh(etfEigenvector) && fresh(etfEigenvector.gBlur)
    {
      etfEigenvector := new CompositeShaderETFEigenvector();
      sigmaE := 1.0;
      sigmaC := 1.6;
      sigmaM := 1.0;
      sigmaA := 1.0;
      phi := 1.0;
      epsilon := 0.9;
      tau := 1.0;
    }

    method SetUniformValues(sigmaC: real, sigmaE: real, sigmaM: real, sigmaA: real, tau: real, phi: real,
                            epsilon: real)
      modifies this`sigmaE, this`sigmaC, this`sigmaM, this`sigmaA, this`tau, this`phi, this`epsilon
      ensures this.sigmaC == sigmaC && this.sigmaE == sigmaE && this.sigmaM == sigmaM && this.sigmaA == sigmaA
      ensures this.tau == tau && this.phi == phi && this.epsilon == epsilon
    {
      this.sigmaE := sigmaE;
      this.sigmaC := sigmaC;
      this.sigmaM := sigmaM;
      this.sigmaA := sigmaA;
      this.tau := tau;
      this.phi := phi;
      this.epsilon := epsilon;
    }

    /** The uniform values the next render uses. */
    function Params(): XDoGParams
      reads this
    {
      XDoGParams(sigmaC, sigmaE, sigmaM, sigmaA, tau, phi, epsilon)
    }

    /**
     * Two edge blurs of the same inputs, with sigmaE and sigmaE * k, into two distinct
     * targets that both stay in use.
     */
    method DualEdgeBlurPass(pool: FramebufferPool, width: int, height: int, inputTextures: seq<Texture>)
      returns (edgeBlur1Fbo: Framebuffer, edgeBlur2Fbo: Framebuffer)
      requires pool.Valid() && !pool.gpu.contextLost
      modifies pool`pool, pool`inUse, pool.gpu`nextTexture, pool.gpu`nextFramebuffer, pool.gpu`trace, pool.gpu`draws
      ensures pool.Valid()
      ensures old(pool.gpu.nextTexture) <= pool.gpu.nextTexture
      ensures
        && edgeBlur1Fbo in pool.pool && Fits(edgeBlur1Fbo, width, height, OutputTextureCount(EdgeBlur))
        && edgeBlur2Fbo in pool.pool && Fits(edgeBlur2Fbo, width, height, OutputTextureCount(EdgeBlur))
        && edgeBlur1Fbo != edgeBlur2Fbo && edgeBlur1Fbo !in old(pool.inUse) && edgeBlur2Fbo !in old(pool.inUse)
        && pool.inUse == old(pool.inUse) + {edgeBlur1Fbo, edgeBlur2Fbo}
      ensures pool.gpu.draws == old(pool.gpu.draws)
        + [DrawRecord(EdgeBlur, [sigmaE], inputTextures, edgeBlur1Fbo.textures),
           DrawRecord(EdgeBlur, [sigmaE * k], inputTextures, edgeBlur2Fbo.textures)]
      ensures old(pool.gpu.Allocated(inputTextures)) ==>
        SharesNone(edgeBlur1Fbo, inputTextures) && SharesNone(edgeBlur2Fbo, inputTextures)
    {
      ghost var u0 := pool.inUse;
      edgeBlur1Fbo := WritePass(pool, EdgeBlur, [sigmaE], inputTextures, width, height, OutputTextureCount(EdgeBlur));
      ghost var u1 := pool.inUse;
      ghost var d1 := pool.gpu.draws;
      edgeBlur2Fbo := WritePass(pool, EdgeBlur, [sigmaE * k], inputTextures, width, height,
                                OutputTextureCount(EdgeBlur));
      assert pool.gpu.draws == d1 + [pool.gpu.draws[|d1|]];
      PairInUse(u0, u1, pool.inUse, edgeBlur1Fbo, edgeBlur2Fbo);
    }

    /** The Lab pass and the eigenvector composite of its output; both targets stay in use. */
    method FrontStage(pool: FramebufferPool, width: int, height: int, inputTextures: seq<Texture>)
      returns (labFbo: Framebuffer, etfEigenvectorFbo: Framebuffer)
      requires pool.Valid() && !pool.gpu.contextLost
      modifies pool`pool, pool`inUse, pool.gpu`nextTexture, pool.gpu`nextFramebuffer, pool.gpu`trace, pool.gpu`draws
      modifies etfEigenvector`sigmaC, etfEigenvector.gBlur`radius, etfEigenvector`outputTextureCount
      ensures pool.Valid()
      ensures old(pool.gpu.nextTexture) <= pool.gpu.nextTexture
      ensures
        && labFbo in pool.pool && Fits(labFbo, width, height, OutputTextureCount(Lab))
        && etfEigenvectorFbo in pool.pool && Fits(etfEigenvectorFbo, width, height, OutputTextureCount(Eigenvector))
        && labFbo != etfEigenvectorFbo && labFbo !in old(pool.inUse) && etfEigenvectorFbo !in old(pool.inUse)
        && pool.inUse == old(pool.inUse) + {labFbo, etfEigenvectorFbo}
      ensures
        && old(pool.gpu.draws) <= pool.gpu.draws && |pool.gpu.draws| == |old(pool.gpu.draws)| + 5
        && pool.gpu.draws[|old(pool.gpu.draws)|] == DrawRecord(Lab, [], inputTextures, labFbo.textures)
        && EigenvectorDraws(pool.gpu.draws[|old(pool.gpu.draws)| + 1..], sigmaC, labFbo.textures,
                            etfEigenvectorFbo.textures)
      ensures old(pool.gpu.Allocated(inputTextures)) ==> AllAliasFree(pool.gpu.draws[|old(pool.gpu.draws)|..])
    {
      ghost var d0 := pool.gpu.draws;
      ghost var u0 := pool.inUse;
      // Pass 1: Lab colour space
      labFbo := WritePass(pool, Lab, [], inputTextures, width, height, OutputTextureCount(Lab));
      ghost var d1 := pool.gpu.draws;
      ghost var u1 := pool.inUse;
      var labTextures := labFbo.GetTextures();
      // Pass 2: edge tangent flow
      pool.AttachmentsAllocated(labFbo);
      etfEigenvector.SetUniformValues(sigmaC);
      etfEigenvectorFbo := etfEigenvector.Render(pool, width, height, labTextures);
      PairInUse(u0, u1, pool.inUse, labFbo, etfEigenvectorFbo);
      LogAfterOne(d0, d1, pool.gpu.draws);
      if old(pool.gpu.Allocated(inputTextures)) {
        AliasFreeStep(d0, d0, d1);
        AliasFreeJoin(d0, d1, pool.gpu.draws);
      }
    }

    /**
     * Both edge blurs of the lightness and the flow map, the Lab target handed back, the
     * difference pass, and both blur targets handed back.
     */
    method DifferenceStage(pool: FramebufferPool, width: int, height: int, labFbo: Framebuffer,
                           xyMapTexture: Texture) returns (xDoGSubtractFbo: Framebuffer)
      requires pool.Valid() && !pool.gpu.contextLost && labFbo in pool.inUse && pool.gpu.Allocated([xyMapTexture])
      modifies pool`pool, pool`inUse, pool.gpu`nextTexture, pool.gpu`nextFramebuffer, pool.gpu`trace, pool.gpu`draws
      ensures pool.Valid()
      ensures old(pool.gpu.nextTexture) <= pool.gpu.nextTexture
      ensures
        && xDoGSubtractFbo in pool.pool && Fits(xDoGSubtractFbo, width, height, OutputTextureCount(XDoGSubtract))
        && xDoGSubtractFbo !in old(pool.inUse) - {labFbo}
        && pool.inUse == (old(pool.inUse) - {labFbo}) + {xDoGSubtractFbo}
      ensures
        && old(pool.gpu.draws) <= pool.gpu.draws
        && DifferenceDraws(pool.gpu.draws[|old(pool.gpu.draws)|..], sigmaE, k, tau, labFbo.textures + [xyMapTexture],
                           xDoGSubtractFbo.textures)
      ensures AllAliasFree(pool.gpu.draws[|old(pool.gpu.draws)|..])
    {
      ghost var d0 := pool.gpu.draws;
      ghost var u0 := pool.inUse;
      pool.AttachmentsAllocated(labFbo);
      pool.gpu.AllocatedConcat(labFbo.textures, [xyMapTexture]);
      // Pass 3: two edge-aligned blurs of different sigmas
      var edgeBlurInputTextures := labFbo.GetTextures() + [xyMapTexture];
      var edgeBlur1Fbo, edgeBlur2Fbo := DualEdgeBlurPass(pool, width, height, edgeBlurInputTextures);
      ghost var d1 := pool.gpu.draws;
      ghost var u1 := pool.inUse;
      pool.Release(labFbo);
      ghost var u2 := pool.inUse;
      // Pass 4: the difference of both blurs
      xDoGSubtractFbo := SubtractPass(pool, width, height, edgeBlur1Fbo, edgeBlur2Fbo);
      DifferenceInUse(u0, u1, u2, pool.inUse, labFbo, edgeBlur1Fbo, edgeBlur2Fbo, xDoGSubtractFbo);
      assert pool.gpu.draws[|d0|..] == [d1[|d0|], d1[|d0| + 1], pool.gpu.draws[|d1|]];
    }

    /** The difference of two edge blurs, and both blur targets handed back. */
    method SubtractPass(pool: FramebufferPool, width: int, height: int, edgeBlur1Fbo: Framebuffer,
                        edgeBlur2Fbo: Framebuffer) returns (xDoGSubtractFbo: Framebuffer)
      requires pool.Valid() && !pool.gpu.contextLost
      requires edgeBlur1Fbo in pool.inUse && edgeBlur2Fbo in pool.inUse
      modifies pool`pool, pool`inUse, pool.gpu`nextTexture, pool.gpu`nextFramebuffer, pool.gpu`trace, pool.gpu`draws
      ensures pool.Valid()
      ensures old(pool.gpu.nextTexture) <= pool.gpu.nextTexture
      ensures
        && xDoGSubtractFbo in pool.pool && Fits(xDoGSubtractFbo, width, height, OutputTextureCount(XDoGSubtract))
        && xDoGSubtractFbo !in old(pool.inUse)
        && pool.inUse == (old(pool.inUse) - {edgeBlur1Fbo, edgeBlur2Fbo}) + {xDoGSubtractFbo}
      ensures pool.gpu.draws == old(pool.gpu.draws)
        + [DrawRecord(XDoGSubtract, [tau], edgeBlur1Fbo.textures + edgeBlur2Fbo.textures, xDoGSubtractFbo.textures)]
      ensures SharesNone(xDoGSubtractFbo, edgeBlur1Fbo.textures + edgeBlur2Fbo.textures)
    {
      var edgeBlurTextures := edgeBlur1Fbo.GetTextures() + edgeBlur2Fbo.GetTextures();
      pool.AttachmentsAllocated(edgeBlur1Fbo);
      pool.AttachmentsAllocated(edgeBlur2Fbo);
      pool.gpu.AllocatedConcat(edgeBlur1Fbo.textures, edgeBlur2Fbo.textures);
      xDoGSubtractFbo := WritePass(pool, XDoGSubtract, [tau], edgeBlurTextures, width, height,
                                   OutputTextureCount(XDoGSubtract));
      pool.Release(edgeBlur1Fbo);
      pool.Release(edgeBlur2Fbo);
    }

    /**
     * The streamline blur of the difference along the flow map, the difference target
     * handed back, the threshold pass, and the streamline target handed back.
     */
    method ThresholdStage(pool: FramebufferPool, width: int, height: int, xDoGSubtractFbo: Framebuffer,
                          xyMapTexture: Texture) returns (xDoGThresholdFbo: Framebuffer)
      requires pool.Valid() && !pool.gpu.contextLost && xDoGSubtractFbo in pool.inUse
      requires pool.gpu.Allocated([xyMapTexture])
      modifies pool`pool, pool`inUse, pool.gpu`nextTexture, pool.gpu`nextFramebuffer, pool.gpu`trace, pool.gpu`draws
      ensures pool.Valid()
      ensures old(pool.gpu.nextTexture) <= pool.gpu.nextTexture
      ensures
        && xDoGThresholdFbo in pool.pool && Fits(xDoGThresholdFbo, width, height, OutputTextureCount(XDoGSubtract))
        && xDoGThresholdFbo !in old(pool.inUse) - {xDoGSubtractFbo}
        && pool.inUse == (old(pool.inUse) - {xDoGSubtractFbo}) + {xDoGThresholdFbo}
      ensures
        && old(pool.gpu.draws) <= pool.gpu.draws
        && ThresholdDraws(pool.gpu.draws[|old(pool.gpu.draws)|..], sigmaM, epsilon, phi, xDoGSubtractFbo.textures,
                          xyMapTexture, xDoGThresholdFbo.textures)
      ensures AllAliasFree(pool.gpu.draws[|old(pool.gpu.draws)|..])
    {
      ghost var d0 := pool.gpu.draws;
      ghost var u0 := pool.inUse;
      pool.AttachmentsAllocated(xDoGSubtractFbo);
      pool.gpu.AllocatedConcat(xDoGSubtractFbo.textures, [xyMapTexture]);
      // Pass 5: streamline blur of the difference
      var streamlineBlur1InputTextures := xDoGSubtractFbo.GetTextures() + [xyMapTexture];
      var streamlineBlurFbo := WritePass(pool, StreamlineBlur, [sigmaM], streamlineBlur1InputTextures, width, height,
                                         OutputTextureCount(StreamlineBlur));
      ghost var d1 := pool.gpu.draws;
      ghost var u1 := pool.inUse;
      var streamlineBlurOutputTextures := streamlineBlurFbo.GetTextures();
      pool.Release(xDoGSubtractFbo);
      ghost var u2 := pool.inUse;
      pool.AttachmentsAllocated(streamlineBlurFbo);
      // The threshold asks for the subtract kernel's attachment count.
      xDoGThresholdFbo := WritePass(pool, XDoGThreshold, [epsilon, phi], streamlineBlurOutputTextures, width, height,
                                    OutputTextureCount(XDoGSubtract));
      ghost var u3 := pool.inUse;
      pool.Release(streamlineBlurFbo);
      SwapInUse(u0, u1, u2, u3, pool.inUse, xDoGSubtractFbo, streamlineBlurFbo, xDoGThresholdFbo);
      assert pool.gpu.draws[|d0|..] == [d1[|d0|], pool.gpu.draws[|d1|]];
    }

    /**
     * The threshold stage on the difference, the antialiasing streamline blur along the
     * flow map, and the threshold target handed back.
     */
    method BackStage(pool: FramebufferPool, width: int, height: int, xDoGSubtractFbo: Framebuffer,
                     xyMapTexture: Texture) returns (antialiasingFbo: Framebuffer)
      requires pool.Valid() && !pool.gpu.contextLost && xDoGSubtractFbo in pool.inUse
      requires pool.gpu.Allocated([xyMapTexture])
      modifies pool`pool, pool`inUse, pool.gpu`nextTexture, pool.gpu`nextFramebuffer, pool.gpu`trace, pool.gpu`draws
      ensures pool.Valid()
      ensures old(pool.gpu.nextTexture) <= pool.gpu.nextTexture
      ensures
        && antialiasingFbo in pool.pool && Fits(antialiasingFbo, width, height, OutputTextureCount(StreamlineBlur))
        && antialiasingFbo !in old(pool.inUse) - {xDoGSubtractFbo}
        && pool.inUse == (old(pool.inUse) - {xDoGSubtractFbo}) + {antialiasingFbo}
      ensures
        && old(pool.gpu.draws) <= pool.gpu.draws
        && BackDraws(pool.gpu.draws[|old(pool.gpu.draws)|..], sigmaM, epsilon, phi, sigmaA, xDoGSubtractFbo.textures,
                     xyMapTexture, antialiasingFbo.textures)
      ensures AllAliasFree(pool.gpu.draws[|old(pool.gpu.draws)|..])
    {
      ghost var d0 := pool.gpu.draws;
      ghost var u0 := pool.inUse;
      var xDoGThresholdFbo := ThresholdStage(pool, width, height, xDoGSubtractFbo, xyMapTexture);
      ghost var d1 := pool.gpu.draws;
      ghost var u1 := pool.inUse;
      pool.AttachmentsAllocated(xDoGThresholdFbo);
      pool.gpu.AllocatedConcat(xDoGThresholdFbo.textures, [xyMapTexture]);
      // Pass 7: antialiasing
      var antialiasingInputTextures := xDoGThresholdFbo.GetTextures() + [xyMapTexture];
      antialiasingFbo := WritePass(pool, StreamlineBlur, [sigmaA], antialiasingInputTextures, width, height,
                                   OutputTextureCount(StreamlineBlur));
      ghost var u2 := pool.inUse;
      pool.Release(xDoGThresholdFbo);
      BackInUse(u0, u1, u2, pool.inUse, xDoGSubtractFbo, xDoGThresholdFbo, antialiasingFbo);
      assert pool.gpu.draws[|d0|..][..2] == d1[|d0|..];
      assert pool.gpu.draws[|d0|..][2] == pool.gpu.draws[|d1|];
      assert AllAliasFree(pool.gpu.draws[|d1|..]) by {
        assert pool.gpu.draws[|d1|..] == [pool.gpu.draws[|d1|]];
      }
      AliasFreeJoin(d0, d1, pool.gpu.draws);
    }

    /**
     * The difference stage on the Lab target and the flow map, the back stage, and the
     * eigenvector target handed back.
     */
    method FlowGuidedStage(pool: FramebufferPool, width: int, height: int, labFbo: Framebuffer,
                           etfEigenvectorFbo: Framebuffer) returns (antialiasingFbo: Framebuffer)
      requires pool.Valid() && !pool.gpu.contextLost
      requires labFbo in pool.inUse && etfEigenvectorFbo in pool.inUse && labFbo != etfEigenvectorFbo
      requires |etfEigenvectorFbo.textures| == OutputTextureCount(Eigenvector)
      modifies pool`pool, pool`inUse, pool.gpu`nextTexture, pool.gpu`nextFramebuffer, pool.gpu`trace, pool.gpu`draws
      ensures pool.Valid()
      ensures old(pool.gpu.nextTexture) <= pool.gpu.nextTexture
      ensures
        && antialiasingFbo in pool.pool && Fits(antialiasingFbo, width, height, OutputTextureCount(StreamlineBlur))
        && antialiasingFbo !in old(pool.inUse) - {labFbo}
        && pool.inUse == (old(pool.inUse) - {labFbo, etfEigenvectorFbo}) + {antialiasingFbo}
      ensures
        && old(pool.gpu.draws) <= pool.gpu.draws
        && FlowGuidedDraws(pool.gpu.draws[|old(pool.gpu.draws)|..], Params(), labFbo.textures,
                           etfEigenvectorFbo.textures[XyFlowMap], antialiasingFbo.textures)
      ensures AllAliasFree(pool.gpu.draws[|old(pool.gpu.draws)|..])
    {
      ghost var d0 := pool.gpu.draws;
      ghost var u0 := pool.inUse;
      var xyMapTexture := etfEigenvectorFbo.GetTextures()[XyFlowMap];
      pool.AttachmentsAllocated(etfEigenvectorFbo);
      assert xyMapTexture in etfEigenvectorFbo.textures;
      // Passes 3 and 4
      var xDoGSubtractFbo := DifferenceStage(pool, width, height, labFbo, xyMapTexture);
      ghost var d1 := pool.gpu.draws;
      ghost var u1 := pool.inUse;
      // Passes 5 to 7
      antialiasingFbo := BackStage(pool, width, height, xDoGSubtractFbo, xyMapTexture);
      ghost var u2 := pool.inUse;
      pool.Release(etfEigenvectorFbo);
      FlowGuidedInUse(u0, u1, u2, pool.inUse, labFbo, etfEigenvectorFbo, xDoGSubtractFbo, antialiasingFbo);
      FlowGuidedAssemble(d0, d1, pool.gpu.draws, Params(), labFbo.textures, xyMapTexture, xDoGSubtractFbo.textures,
                         antialiasingFbo.textures);
      AliasFreeJoin(d0, d1, pool.gpu.draws);
    }

    /**
     * Runs the composite; the antialiased target is the only one left in use, and the
     * eigenvector composite ran with this composite's sigmaC.
     */
    method Render(pool: FramebufferPool, width: int, height: int, inputTextures: seq<Texture>)
      returns (r: Framebuffer)
      requires pool.Valid() && !pool.gpu.contextLost
      modifies pool`pool, pool`inUse, pool.gpu`nextTexture, pool.gpu`nextFramebuffer, pool.gpu`trace, pool.gpu`draws
      modifies etfEigenvector`sigmaC, etfEigenvector.gBlur`radius, etfEigenvector`outputTextureCount
      ensures pool.Valid()
      ensures old(pool.gpu.nextTexture) <= pool.gpu.nextTexture
      ensures
        && pool.HandsOut(r, old(pool.inUse), width, height, OutputTextureCount(StreamlineBlur))
        && XDoGRun(old(pool.gpu.draws), pool.gpu.draws, Params(), inputTextures, r.textures)
        && (old(pool.gpu.Allocated(inputTextures)) ==> AllAliasFree(pool.gpu.draws[|old(pool.gpu.draws)|..]))
    {
      ghost var d0 := pool.gpu.draws;
      ghost var u0 := pool.inUse;
      ghost var allocated0 := pool.gpu.Allocated(inputTextures);
      // Passes 1 and 2
      var labFbo, etfEigenvectorFbo := FrontStage(pool, width, height, inputTextures);
      ghost var d1 := pool.gpu.draws;
      ghost var u1 := pool.inUse;
      r := FlowGuidedStage(pool, width, height, labFbo, etfEigenvectorFbo);
      XDoGInUse(u0, u1, pool.inUse, labFbo, etfEigenvectorFbo, r);
      XDoGAssemble(d0, d1, pool.gpu.draws, Params(), inputTextures, labFbo.textures, etfEigenvectorFbo.textures,
                   r.textures);
      XDoGRunOfSuffix(d0, pool.gpu.draws, Params(), inputTextures, r.textures);
      if allocated0 {
        AliasFreeJoin(d0, d1, pool.gpu.draws);
      }
    }
  }
}
