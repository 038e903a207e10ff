/**
 * The anisotropic Kuwahara composite: a grayscale pass, the eigenvector composite of the
 * grayscale image (anisotropy and flow map), and the anisotropic Kuwahara pass over the
 * input textures followed by both eigenvector attachments.
 */
module CompositeAnisotropicKuwaharas {
  import opened Wrappers
  import opened GpuModel
  import opened Framebuffers
  import opened FramebufferPools
  import opened Passes
  import opened CompositeEigenvectors

  /** Math.PI as a double. */
  const Pi: real := 3.141592653589793

  /** The uniform values of the Kuwahara pass, in the order the pass takes them. */
  datatype KuwaharaParams = KuwaharaParams(radius: real, hardness: real, sharpness: real, zeta: real,
                                           zeroCrossing: real, alpha: real)

  function KuwaharaUniforms(kp: KuwaharaParams): (u: seq<real>)
    ensures |u| == 6 && u[0] == kp.radius && u[4] == kp.zeroCrossing && u[5] == kp.alpha
  {
    [kp.radius, kp.hardness, kp.sharpness, kp.zeta, kp.zeroCrossing, kp.alpha]
  }

  /**
   * The draws before the Kuwahara pass: the grayscale pass of `inputs`, then the
   * eigenvector composite of its attachment with radius `sigma` into `eigen`.
   */
  predicate FlowDraws(ds: seq<DrawRecord>, sigma: real, inputs: seq<Texture>, eigen: seq<Texture>)
  {
    && |ds| == 5
    && ds[0] == DrawRecord(Grayscale, [], inputs, ds[0].target)
    && |ds[0].target| == OutputTextureCount(Grayscale)
    && EigenvectorDraws(ds[1..], sigma, ds[0].target, eigen)
    && |eigen| == OutputTextureCount(Eigenvector)
  }

  /**
   * The draws of one composite run from `inputs` into `out`: the flow draws, and the
   * Kuwahara pass over the inputs and both eigenvector attachments.
   */
  predicate KuwaharaDraws(ds: seq<DrawRecord>, sigma: real, kp: KuwaharaParams, inputs: seq<Texture>, out: seq<Texture>)
  {
    && |ds| == 6
    && FlowDraws(ds[..5], sigma, inputs, ds[4].target)
    && ds[5] == DrawRecord(AnisotropicKuwaharaPass, KuwaharaUniforms(kp), inputs + ds[4].target, out)
  }

  /**
   * The shape of a composite run: the kernels in order, the structure tensor reads the
   * grayscale image, and the Kuwahara pass reads every input texture, then the anisotropy,
   * then the flow map, into a single attachment.
   */
  lemma KuwaharaShape(ds: seq<DrawRecord>, sigma: real, kp: KuwaharaParams, inputs: seq<Texture>, out: seq<Texture>)
    requires KuwaharaDraws(ds, sigma, kp, inputs, out)
    ensures Kernels(ds) == [Grayscale, StructuredTensor, GaussianBlurPass, GaussianBlurPass, Eigenvector,
                            AnisotropicKuwaharaPass]
    ensures ds[0].inputs == inputs && ds[1].inputs == ds[0].target
    ensures |ds[5].inputs| == |inputs| + 2 && ds[5].inputs[..|inputs|] == inputs
    ensures ds[5].inputs[|inputs| + EigenvectorXYFlowMap] == ds[4].target[EigenvectorXYFlowMap]
    ensures ds[5].target == out && ds[5].params == KuwaharaUniforms(kp)
  {
    var f := ds[..5];
    var e := f[1..];
    assert f[0] == ds[0] && f[4] == ds[4];
    assert e[0] == ds[1] && e[1] == ds[2] && e[2] == ds[3] && e[3] == ds[4];
    assert e[1..3][0] == ds[2] && e[1..3][1] == ds[3];
    assert (inputs + ds[4].target)[..|inputs|] == inputs;
  }

  /** The flow draws from the grayscale draw and the eigenvector draws after it. */
  lemma FlowAssemble(d0: seq<DrawRecord>, d1: seq<DrawRecord>, d2: seq<DrawRecord>, sigma: real,
                     inputs: seq<Texture>, gray: seq<Texture>, eigen: seq<Texture>)
    requires d1 == d0 + [DrawRecord(Grayscale, [], inputs, gray)] && |gray| == 1
    requires d1 <= d2 && EigenvectorDraws(d2[|d1|..], sigma, gray, eigen) && |eigen| == 2
    ensures d0 <= d2 && FlowDraws(d2[|d0|..], sigma, inputs, eigen)
  {
    var ds := d2[|d0|..];
    assert ds[1..] == d2[|d1|..];
  }

  /** The draw log of one composite run, from the flow draws and the Kuwahara draw. */
  lemma KuwaharaAssemble(d0: seq<DrawRecord>, d2: seq<DrawRecord>, d3: seq<DrawRecord>, sigma: real,
                         kp: KuwaharaParams, inputs: seq<Texture>, eigen: seq<Texture>, out: seq<Texture>)
    requires d0 <= d2 && FlowDraws(d2[|d0|..], sigma, inputs, eigen)
    requires d3 == d2 + [DrawRecord(AnisotropicKuwaharaPass, KuwaharaUniforms(kp), inputs + eigen, out)]
    ensures d0 <= d3 && KuwaharaDraws(d3[|d0|..], sigma, kp, inputs, out)
  {
    var ds := d3[|d0|..];
    assert ds[..5] == d2[|d0|..];
    assert EigenvectorDraws(ds[..5][1..], sigma, ds[..5][0].target, eigen);
  }

  /**
   * The in-use bookkeeping of the flow draws: the grayscale target taken, the eigenvector
   * target taken, and the grayscale target handed back.
   */
  lemma FlowInUse(u0: set<Framebuffer>, u1: set<Framebuffer>, u2: set<Framebuffer>, u3: set<Framebuffer>,
                  g: Framebuffer, e: Framebuffer)
    requires g !in u0 && u1 == u0 + {g} && e !in u1 && u2 == u1 + {e} && u3 == u2 - {g}
    ensures e !in u0 && u3 == u0 + {e}
  {
  }

  /**
   * The draws appended to the log `before` to give `after` are one composite run: `after`
   * extends `before`, and whatever follows `before` in it satisfies KuwaharaDraws.
   */
  ghost predicate KuwaharaRun(before: seq<DrawRecord>, after: seq<DrawRecord>, sigma: real, kp: KuwaharaParams,
                              inputs: seq<Texture>, out: seq<Texture>)
  {
    && before <= after
    && forall ds | after == before + ds :: KuwaharaDraws(ds, sigma, kp, inputs, out)
  }

  /** A run found past the prefix is a run appended to it. */
  lemma KuwaharaRunOfSuffix(before: seq<DrawRecord>, after: seq<DrawRecord>, sigma: real, kp: KuwaharaParams,
                            inputs: seq<Texture>, out: seq<Texture>)
    requires before <= after
    requires KuwaharaDraws(after[|before|..], sigma, kp, inputs, out)
    ensures KuwaharaRun(before, after, sigma, kp, inputs, out)
  {
    forall ds | after == before + ds
      ensures KuwaharaDraws(ds, sigma, kp, inputs, out)
    {
      assert ds == after[|before|..];
    }
  }

  /** The Kuwahara target taken after the flow draws, then the eigenvector target handed back. */
  lemma KuwaharaInUse(u0: set<Framebuffer>, u2: set<Framebuffer>, u3: set<Framebuffer>, u4: set<Framebuffer>,
                      e: Framebuffer, k: Framebuffer)
    requires e !in u0 && u2 == u0 + {e} && k !in u2 && u3 == u2 + {k} && u4 == u3 - {e}
    ensures k !in u0 && u4 == u0 + {k}
  {
  }

  class CompositeShaderAnisotropicKuwahara {
    const eigenvector: CompositeShaderETFEigenvector
    var sigma: real
    var alpha: real
    var zeroCrossing: real
    var sharpness: real
    var zeta: real
    var radius: real
    var hardness: real

    /** The defaults; the default zero crossing is 240 as it stands, without the conversion the setter applies. */
    constructor ()
      ensures sigma == 1.6 && alpha == 1.0 && zeroCrossing == 240.0 && sharpness == 18.0
      ensures zeta == 2.0 && radius == 4.0 && hardness == 100.0
      ensures fresh(eigenvector) && fresh(eigenvector.gBlur)
    {
      eigenvector := new CompositeShaderETFEigenvector();
      sigma := 1.6;
      alpha := 1.0;
      zeroCrossing := 240.0;
      sharpness := 18.0;
      zeta := 2.0;
      radius := 4.0;
      hardness := 100.0;
    }

    /** Stores the slider values; the zero crossing is scaled by pi / 8. */
    method SetUniformValues(radius: real, hardness: real, sharpness: real, zeta: real, zeroCrossing: real,
                            alpha: real, sigma: real)
      modifies this`radius, this`hardness, this`sharpness, this`zeta, this`zeroCrossing, this`alpha, this`sigma
      ensures this.radius == radius && this.hardness == hardness && this.sharpness == sharpness
      ensures this.zeta == zeta && this.zeroCrossing == zeroCrossing * (Pi / 8.0)
      ensures this.alpha == alpha && this.sigma == sigma
    {
      this.radius := radius;
      this.hardness := hardness;
      this.sharpness := sharpness;
      this.zeta := zeta;
      this.zeroCrossing := zeroCrossing * (Pi / 8.0);
      this.alpha := alpha;
      this.sigma := sigma;
    }

    /** The uniform values the next Kuwahara pass takes. */
    function Params(): KuwaharaParams
      reads this
    {
      KuwaharaParams(radius, hardness, sharpness, zeta, zeroCrossing, alpha)
    }

    /**
     * The grayscale pass and the eigenvector composite of its attachment; only the
     * eigenvector target stays in use.
     */
    method FlowStage(pool: FramebufferPool, width: int, height: int, inputTextures: seq<Texture>)
      returns (eigenvectorFbo: Framebuffer)
      requires pool.Valid() && !pool.gpu.contextLost
      modifies pool`pool, pool`inUse, pool.gpu`nextTexture, pool.gpu`nextFramebuffer, pool.gpu`trace, pool.gpu`draws
      modifies eigenvector`sigmaC, eigenvector`outputTextureCount, eigenvector.gBlur`radius
      ensures pool.Valid()
      ensures old(pool.gpu.nextTexture) <= pool.gpu.nextTexture
      ensures pool.HandsOut(eigenvectorFbo, old(pool.inUse), width, height, OutputTextureCount(Eigenvector))
      ensures old(pool.gpu.draws) <= pool.gpu.draws
      ensures FlowDraws(pool.gpu.draws[|old(pool.gpu.draws)|..], sigma, inputTextures, eigenvectorFbo.textures)
      ensures old(pool.gpu.Allocated(inputTextures)) ==> AllAliasFree(pool.gpu.draws[|old(pool.gpu.draws)|..])
    {
      ghost var d0 := pool.gpu.draws;
      ghost var u0 := pool.inUse;
      // Pass 1: grayscale
      var grayscaleFbo := SwapPass(pool, Grayscale, [], inputTextures, width, height);
      ghost var d1 := pool.gpu.draws;
      ghost var u1 := pool.inUse;
      // Pass 2: eigenvectors of the structure tensor of the grayscale image
      pool.AttachmentsAllocated(grayscaleFbo);
      var grayscaleTextures := grayscaleFbo.GetTextures();
      eigenvector.SetUniformValues(sigma);
      eigenvectorFbo := eigenvector.Render(pool, width, height, grayscaleTextures);
      ghost var u2 := pool.inUse;
      pool.Release(grayscaleFbo);
      FlowInUse(u0, u1, u2, pool.inUse, grayscaleFbo, eigenvectorFbo);
      FlowAssemble(d0, d1, pool.gpu.draws, sigma, inputTextures, grayscaleTextures, eigenvectorFbo.textures);
      if old(pool.gpu.Allocated(inputTextures)) {
        AliasFreeStep(d0, d0, d1);
        AliasFreeJoin(d0, d1, pool.gpu.draws);
      }
    }

    /**
     * Runs the composite. Only the Kuwahara target stays in use; the grayscale and the
     * eigenvector targets have been handed back.
     */
    method Render(pool: FramebufferPool, width: int, height: int, inputTextures: seq<Texture>)
      returns (r: Framebuffer)
      requires pool.Valid() && !pool.gpu.contextLost
      modifies pool`pool, pool`inUse, pool.gpu`nextTexture, pool.gpu`nextFramebuffer, pool.gpu`trace, pool.gpu`draws
      modifies eigenvector`sigmaC, eigenvector`outputTextureCount, eigenvector.gBlur`radius
      ensures pool.Valid()
      ensures old(pool.gpu.nextTexture) <= pool.gpu.nextTexture
      ensures
        && pool.HandsOut(r, old(pool.inUse), width, height, OutputTextureCount(AnisotropicKuwaharaPass))
        && KuwaharaRun(old(pool.gpu.draws), pool.gpu.draws, sigma, Params(), inputTextures, r.textures)
        && (old(pool.gpu.Allocated(inputTextures)) ==> AllAliasFree(pool.gpu.draws[|old(pool.gpu.draws)|..]))
    {
      ghost var d0 := pool.gpu.draws;
      ghost var u0 := pool.inUse;
      ghost var allocated0 := pool.gpu.Allocated(inputTextures);
      var eigenvectorFbo := FlowStage(pool, width, height, inputTextures);
      ghost var d2 := pool.gpu.draws;
      ghost var u2 := pool.inUse;
      // Final pass: Kuwahara filtering of the inputs along the flow
      pool.AttachmentsAllocated(eigenvectorFbo);
      var etfTextures := eigenvectorFbo.GetTextures();
      var anisotropicInputTextures := inputTextures + etfTextures;
      if allocated0 {
        pool.gpu.AllocatedConcat(inputTextures, etfTextures);
      }
      r := SwapPass(pool, AnisotropicKuwaharaPass, KuwaharaUniforms(Params()), anisotropicInputTextures, width, height);
      ghost var u3 := pool.inUse;
      pool.Release(eigenvectorFbo);
      KuwaharaInUse(u0, u2, u3, pool.inUse, eigenvectorFbo, r);
      KuwaharaAssemble(d0, d2, pool.gpu.draws, sigma, Params(), inputTextures, etfTextures, r.textures);
      KuwaharaRunOfSuffix(d0, pool.gpu.draws, sigma, Params(), inputTextures, r.textures);
      if allocated0 {
        AliasFreeStep(d0, d2, pool.gpu.draws);
      }
    }
  }
}
