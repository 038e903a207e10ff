/**
 * The three ways a render method runs one kernel over the pool. Every node and
 * composite spells one of them out inline (or in a private helper of its own); the
 * model writes each idiom once and states its net effect on the pool and the draw log.
 */
module Passes {
  import opened Wrappers
  import opened GpuModel
  import opened Framebuffers
  import opened FramebufferPools
  import opened ShaderPass

  /**
   * getWrite (excluding the pass inputs), draw into that target, return it: the private
   * pass helpers of the edge-tangent-flow, XDoG, FBL and line-drawing composites. The
   * texture count is a parameter because two helpers ask for another kernel's count.
   */
  method WritePass(pool: FramebufferPool, kernel: Kernel, params: seq<real>, inputs: seq<Texture>,
                   width: int, height: int, count: nat) returns (r: Framebuffer)
    requires pool.Valid() && !pool.gpu.contextLost && count >= 1
    modifies pool`pool, pool`inUse, pool.gpu`nextTexture, pool.gpu`nextFramebuffer, pool.gpu`trace, pool.gpu`draws
    ensures pool.Valid()
    ensures old(pool.gpu.nextTexture) <= pool.gpu.nextTexture
    ensures
      && pool.HandsOut(r, old(pool.inUse), width, height, count)
      && pool.gpu.draws == old(pool.gpu.draws) + [DrawRecord(kernel, params, inputs, r.textures)]
      && (old(pool.gpu.Allocated(inputs)) ==> SharesNone(r, inputs))
  {
    var write := pool.GetWrite(width, height, inputs, count);
    r := write.value;
    WriteShader(pool.gpu, kernel, inputs, width, height, r, Some(params));
  }

  /** getWrite (excluding `inputs`) and then getRead, both of the same shape: two new targets in use. */
  method WriteReadPair(pool: FramebufferPool, inputs: seq<Texture>, width: int, height: int, count: nat)
    returns (fboWrite: Framebuffer, fboRead: Framebuffer)
    requires pool.Valid() && !pool.gpu.contextLost && count >= 1
    modifies pool`pool, pool`inUse, pool.gpu`nextTexture, pool.gpu`nextFramebuffer, pool.gpu`trace
    ensures pool.Valid()
    ensures old(pool.gpu.nextTexture) <= pool.gpu.nextTexture
    ensures fboWrite in pool.pool && Fits(fboWrite, width, height, count) && fboWrite !in old(pool.inUse)
    ensures fboRead in pool.pool && fboRead != fboWrite && fboRead !in old(pool.inUse)
    ensures pool.inUse == old(pool.inUse) + {fboWrite, fboRead}
    ensures old(pool.gpu.Allocated(inputs)) ==> SharesNone(fboWrite, inputs)
  {
    var write := pool.GetWrite(width, height, inputs, count);
    fboWrite := write.value;
    var read := pool.GetRead(width, height, count);
    fboRead := read.value;
  }

  /**
   * getWrite (excluding the pass inputs), then getRead, draw into the write target, swap
   * the two, and release the getRead target, which nothing has drawn into.
   */
  method SwapPass(pool: FramebufferPool, kernel: Kernel, params: seq<real>, inputs: seq<Texture>,
                  width: int, height: int) returns (r: Framebuffer)
    requires pool.Valid() && !pool.gpu.contextLost
    modifies pool`pool, pool`inUse, pool.gpu`nextTexture, pool.gpu`nextFramebuffer, pool.gpu`trace, pool.gpu`draws
    ensures pool.Valid()
    ensures old(pool.gpu.nextTexture) <= pool.gpu.nextTexture
    ensures
      && pool.HandsOut(r, old(pool.inUse), width, height, OutputTextureCount(kernel))
      && pool.gpu.draws == old(pool.gpu.draws) + [DrawRecord(kernel, params, inputs, r.textures)]
      && (old(pool.gpu.Allocated(inputs)) ==> SharesNone(r, inputs))
  {
    var fboWrite, framebuffer := WriteReadPair(pool, inputs, width, height, OutputTextureCount(kernel));
    WriteShader(pool.gpu, kernel, inputs, width, height, fboWrite, Some(params));
    framebuffer, fboWrite := fboWrite, framebuffer;
    pool.Release(fboWrite);
    return framebuffer;
  }

  /** getRead and then getWrite (excluding `inputs`), both of the same shape: two new targets in use. */
  method ReadWritePair(pool: FramebufferPool, inputs: seq<Texture>, width: int, height: int, count: nat)
    returns (fboRead: Framebuffer, fboWrite: Framebuffer)
    requires pool.Valid() && !pool.gpu.contextLost && count >= 1
    modifies pool`pool, pool`inUse, pool.gpu`nextTexture, pool.gpu`nextFramebuffer, pool.gpu`trace
    ensures pool.Valid()
    ensures old(pool.gpu.nextTexture) <= pool.gpu.nextTexture
    ensures fboWrite in pool.pool && Fits(fboWrite, width, height, count) && fboWrite !in old(pool.inUse)
    ensures fboRead in pool.pool && fboRead != fboWrite && fboRead !in old(pool.inUse)
    ensures pool.inUse == old(pool.inUse) + {fboWrite, fboRead}
    ensures old(pool.gpu.Allocated(inputs)) ==> SharesNone(fboWrite, inputs)
  {
    var read := pool.GetRead(width, height, count);
    fboRead := read.value;
    var write := pool.GetWrite(width, height, inputs, count);
    fboWrite := write.value;
  }

  /** The same idiom with the getRead target taken first (the eigenvector composite's order). */
  method ReadFirstSwapPass(pool: FramebufferPool, kernel: Kernel, params: seq<real>, inputs: seq<Texture>,
                           width: int, height: int) returns (r: Framebuffer)
    requires pool.Valid() && !pool.gpu.contextLost
    modifies pool`pool, pool`inUse, pool.gpu`nextTexture, pool.gpu`nextFramebuffer, pool.gpu`trace, pool.gpu`draws
    ensures pool.Valid()
    ensures old(pool.gpu.nextTexture) <= pool.gpu.nextTexture
    ensures
      && pool.HandsOut(r, old(pool.inUse), width, height, OutputTextureCount(kernel))
      && pool.gpu.draws == old(pool.gpu.draws) + [DrawRecord(kernel, params, inputs, r.textures)]
      && (old(pool.gpu.Allocated(inputs)) ==> SharesNone(r, inputs))
  {
    var framebuffer, fboWrite := ReadWritePair(pool, inputs, width, height, OutputTextureCount(kernel));
    WriteShader(pool.gpu, kernel, inputs, width, height, fboWrite, Some(params));
    fboWrite, framebuffer := framebuffer, fboWrite;
    pool.Release(fboWrite);
    return framebuffer;
  }
}
