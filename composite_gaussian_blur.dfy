/**
 * The separable Gaussian blur: a horizontal pass into one target, then a vertical pass
 * from it into a second one, each drawn into a getWrite target and paired with a getRead
 * target that is swapped out and released.
 */
module CompositeGaussianBlurs {
  import opened Wrappers
  import opened GpuModel
  import opened Framebuffers
  import opened FramebufferPools
  import opened Passes

  /** The uniform values of a blur pass with this radius along direction (dx, dy). */
  function BlurParams(radius: real, dx: real, dy: real): seq<real>
  {
    [radius, dx, dy]
  }

  /**
   * The draws of one blur: horizontal from `inputs` into a single attachment, vertical
   * from that attachment into `out`, both with the same radius.
   */
  predicate GaussianBlurDraws(ds: seq<DrawRecord>, radius: real, inputs: seq<Texture>, out: seq<Texture>)
  {
    && |ds| == 2
    && ds[0] == DrawRecord(GaussianBlurPass, BlurParams(radius, 1.0, 0.0), inputs, ds[0].target)
    && |ds[0].target| == 1
    && ds[1] == DrawRecord(GaussianBlurPass, BlurParams(radius, 0.0, 1.0), ds[0].target, out)
  }

  class CompositeShaderGaussianBlur {
    var radius: real
    const outputTextureCount: nat

    constructor ()
      ensures radius == 1.6 && outputTextureCount == OutputTextureCount(GaussianBlurPass)
    {
      radius := 1.6;
      outputTextureCount := OutputTextureCount(GaussianBlurPass);
    }

    method SetUniformValues(radius: real)
      modifies this`radius
      ensures this.radius == radius
    {
      this.radius := radius;
    }

    method Render(pool: FramebufferPool, width: int, height: int, inputTextures: seq<Texture>)
      returns (r: Framebuffer)
      requires pool.Valid() && !pool.gpu.contextLost
      modifies pool`pool, pool`inUse, pool.gpu`nextTexture, pool.gpu`nextFramebuffer, pool.gpu`trace, pool.gpu`draws
      ensures pool.Valid()
      ensures old(pool.gpu.nextTexture) <= pool.gpu.nextTexture
      ensures
        && pool.HandsOut(r, old(pool.inUse), width, height, OutputTextureCount(GaussianBlurPass))
        && old(pool.gpu.draws) <= pool.gpu.draws
        && GaussianBlurDraws(pool.gpu.draws[|old(pool.gpu.draws)|..], radius, inputTextures, r.textures)
        && (old(pool.gpu.Allocated(inputTextures)) ==> AllAliasFree(pool.gpu.draws[|old(pool.gpu.draws)|..]))
    {
      ghost var d0 := pool.gpu.draws;
      var blurXFbo := SwapPass(pool, GaussianBlurPass, BlurParams(radius, 1.0, 0.0), inputTextures, width, height);
      ghost var d1 := pool.gpu.draws;
      var blurXTextures := blurXFbo.GetTextures();
      var blurYFbo := SwapPass(pool, GaussianBlurPass, BlurParams(radius, 0.0, 1.0), blurXTextures, width, height);
      pool.Release(blurXFbo);
      assert pool.gpu.draws[|d0|..] == [d1[|d0|], pool.gpu.draws[|d1|]];
      return blurYFbo;
    }
  }
}
