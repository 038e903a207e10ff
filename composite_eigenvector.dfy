/**
 * The edge-tangent-flow eigenvector composite: a structure-tensor pass, a separable
 * Gaussian blur of the tensor, and an eigenvector pass whose two attachments are the
 * anisotropy and the xy flow map.
 */
module CompositeEigenvectors {
  import opened Wrappers
  import opened GpuModel
  import opened Framebuffers
  import opened FramebufferPools
  import opened Passes
  import opened CompositeGaussianBlurs

  /**
   * The draws of one eigenvector composite: the tensor of `inputs` into one attachment,
   * its blur with radius `sigma`, and the eigenvector pass from the blur into `out`.
   */
  predicate EigenvectorDraws(ds: seq<DrawRecord>, sigma: real, inputs: seq<Texture>, out: seq<Texture>)
  {
    && |ds| == 4
    && ds[0] == DrawRecord(StructuredTensor, [], inputs, ds[0].target)
    && |ds[0].target| == OutputTextureCount(StructuredTensor)
    && GaussianBlurDraws(ds[1..3], sigma, ds[0].target, ds[2].target)
    && ds[3] == DrawRecord(Eigenvector, [], ds[2].target, out)
  }

  lemma EigenvectorAssemble(d0: seq<DrawRecord>, d1: seq<DrawRecord>, d2: seq<DrawRecord>, d3: seq<DrawRecord>,
                            sigma: real, inputs: seq<Texture>, tensor: seq<Texture>, blur: seq<Texture>,
                            out: seq<Texture>)
    requires d1 == d0 + [DrawRecord(StructuredTensor, [], inputs, tensor)] && |tensor| == 1
    requires d1 <= d2 && GaussianBlurDraws(d2[|d1|..], sigma, tensor, blur)
    requires d3 == d2 + [DrawRecord(Eigenvector, [], blur, out)]
    ensures d0 <= d3 && EigenvectorDraws(d3[|d0|..], sigma, inputs, out)
  {
    assert d3[|d0|..][1..3] == d2[|d1|..];
  }

  lemma AliasFreeAssemble(d0: seq<DrawRecord>, d1: seq<DrawRecord>, d2: seq<DrawRecord>, d3: seq<DrawRecord>)
    requires d0 <= d1 <= d2 <= d3 && |d1| == |d0| + 1 && |d3| == |d2| + 1
    requires AliasFree(d1[|d0|]) && AllAliasFree(d2[|d1|..]) && AliasFree(d3[|d2|])
    ensures AllAliasFree(d3[|d0|..])
  {
    forall i | 0 <= i < |d3| - |d0|
      ensures AliasFree(d3[|d0|..][i])
    {
      if i == 0 {
      } else if i < |d2| - |d0| {
        assert d3[|d0|..][i] == d2[|d1|..][i - 1];
      }
    }
  }

  lemma InUseAssemble(u0: set<Framebuffer>, u1: set<Framebuffer>, u2: set<Framebuffer>, u3: set<Framebuffer>,
                      u4: set<Framebuffer>, u5: set<Framebuffer>, t: Framebuffer, b: Framebuffer, e: Framebuffer)
    requires t !in u0 && u1 == u0 + {t} && b !in u1 && u2 == u1 + {b} && u3 == u2 - {t}
    requires e !in u3 && u4 == u3 + {e} && u5 == u4 - {b}
    ensures e !in u0 && u5 == u0 + {e}
  {
  }

  class CompositeShaderETFEigenvector {
    const gBlur: CompositeShaderGaussianBlur
    var sigmaC: real
    var outputTextureCount: int

    constructor ()
      ensures sigmaC == 1.6 && outputTextureCount == 3 && fresh(gBlur)
    {
      gBlur := new CompositeShaderGaussianBlur();
      sigmaC := 1.6;
      outputTextureCount := 3;
    }

    method SetUniformValues(sigmaC: real)
      modifies this`sigmaC
      ensures this.sigmaC == sigmaC
    {
      this.sigmaC := sigmaC;
    }

    method Render(pool: FramebufferPool, width: int, height: int, inputTextures: seq<Texture>)
      returns (r: Framebuffer)
      requires pool.Valid() && !pool.gpu.contextLost
      modifies pool`pool, pool`inUse, pool.gpu`nextTexture, pool.gpu`nextFramebuffer, pool.gpu`trace, pool.gpu`draws
      modifies gBlur`radius, this`outputTextureCount
      ensures pool.Valid()
      ensures old(pool.gpu.nextTexture) <= pool.gpu.nextTexture
      ensures
        && pool.HandsOut(r, old(pool.inUse), width, height, OutputTextureCount(Eigenvector))
        && outputTextureCount == OutputTextureCount(Eigenvector)
        && old(pool.gpu.draws) <= pool.gpu.draws
        && EigenvectorDraws(pool.gpu.draws[|old(pool.gpu.draws)|..], sigmaC, inputTextures, r.textures)
        && (old(pool.gpu.Allocated(inputTextures)) ==> AllAliasFree(pool.gpu.draws[|old(pool.gpu.draws)|..]))
    {
      ghost var d0 := pool.gpu.draws;
      ghost var u0 := pool.inUse;
      ghost var allocated0 := pool.gpu.Allocated(inputTextures);
      // Pass 1: structure tensor
      var structuredTensorFbo := ReadFirstSwapPass(pool, StructuredTensor, [], inputTextures, width, height);
      ghost var d1 := pool.gpu.draws;
      ghost var u1 := pool.inUse;
      // Pass 2: Gaussian blur of the tensor
      var structuredTensorTextures := structuredTensorFbo.GetTextures();
      gBlur.SetUniformValues(sigmaC);
      var gaussianBlurFbo := gBlur.Render(pool, width, height, structuredTensorTextures);
      ghost var d2 := pool.gpu.draws;
      ghost var u2 := pool.inUse;
      pool.Release(structuredTensorFbo);
      ghost var u3 := pool.inUse;
      // Final pass: eigenvectors of the blurred tensor
      var gaussianBlurTextures := gaussianBlurFbo.GetTextures();
      var eigenvectorFbo := ReadFirstSwapPass(pool, Eigenvector, [], gaussianBlurTextures, width, height);
      ghost var d3 := pool.gpu.draws;
      ghost var u4 := pool.inUse;
      pool.Release(gaussianBlurFbo);
      InUseAssemble(u0, u1, u2, u3, u4, pool.inUse, structuredTensorFbo, gaussianBlurFbo, eigenvectorFbo);
      outputTextureCount := eigenvectorFbo.GetTextureCount();
      EigenvectorAssemble(d0, d1, d2, d3, sigmaC, inputTextures, structuredTensorTextures, gaussianBlurTextures,
                          eigenvectorFbo.textures);
      if allocated0 {
        AliasFreeAssemble(d0, d1, d2, d3);
      }
      return eigenvectorFbo;
    }
  }
}
