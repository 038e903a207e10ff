/**
 * The colour-inversion node: one kernel pass drawn into a getWrite target that excludes
 * its inputs, paired with a getRead target that is swapped out and handed back.
 */
module NodeInverts {
  import opened Wrappers
  import opened GpuModel
  import opened Framebuffers
  import opened FramebufferPools
  import opened Passes
  import opened Sockets
  import opened DependencyResolvers

  class NodeInvert {
    const id: nat
    const inputSockets: seq<InputSocket>
    const outputSockets: seq<OutputSocket>
    var framebuffer: Option<Framebuffer>
    const dependencyResolver: DependencyResolver

    predicate Shaped()
    {
      ImageFilterShape(id, inputSockets, outputSockets)
    }

    /** One IMAGE input and one IMAGE output owned by the node; no render target yet. */
    constructor (id: nat)
      ensures Shaped() && this.id == id
      ensures fresh(inputSockets[0]) && inputSockets[0].source == None
      ensures fresh(outputSockets[0]) && outputSockets[0].data == None && outputSockets[0].connections == {}
      ensures framebuffer == None
      ensures fresh(dependencyResolver)
      ensures dependencyResolver.totalDependantCount == 0 && dependencyResolver.dependencyUsedCount == 0
    {
      this.id := id;
      var ins, outs := ImageFilterSockets(id);
      inputSockets := ins;
      outputSockets := outs;
      framebuffer := None;
      dependencyResolver := new DependencyResolver();
    }

    /** isNodeNeeded asks the resolver. */
    method IsNodeNeeded() returns (b: bool)
      modifies dependencyResolver`dependencyUsedCount
      ensures (b, dependencyResolver.dependencyUsedCount)
        == Resolve(dependencyResolver.totalDependantCount, old(dependencyResolver.dependencyUsedCount))
    {
      b := dependencyResolver.IsResolved();
    }

    /**
     * render: the one target added to the pool's in-use set is the one drawn into, which
     * the node keeps; it reads none of the inputs, and its attachments are published on
     * the outputs.
     */
    method Render(pool: FramebufferPool, textureWidth: int, textureHeight: int, inputTextures: seq<Texture>)
      returns (r: Option<Texture>)
      requires Shaped() && pool.Valid() && !pool.gpu.contextLost
      modifies this`framebuffer, outputSockets`data
      modifies pool`pool, pool`inUse, pool.gpu`nextTexture, pool.gpu`nextFramebuffer, pool.gpu`trace, pool.gpu`draws
      ensures pool.Valid()
      ensures old(pool.gpu.nextTexture) <= pool.gpu.nextTexture
      ensures framebuffer.Some?
      ensures pool.HandsOut(framebuffer.value, old(pool.inUse), textureWidth, textureHeight, |outputSockets|)
      ensures pool.gpu.draws == old(pool.gpu.draws) + [DrawRecord(Invert, [], inputTextures, framebuffer.value.textures)]
      ensures old(pool.gpu.Allocated(inputTextures)) ==> SharesNone(framebuffer.value, inputTextures)
      ensures Values(outputSockets) == Published(framebuffer.value.textures, |outputSockets|)
      ensures r == Some(framebuffer.value.textures[0])
    {
      // outputSockets.length is 1, the kernel's attachment count: the swap-pass idiom.
      var fbo := SwapPass(pool, Invert, [], inputTextures, textureWidth, textureHeight);
      framebuffer := Some(fbo);
      Publish(outputSockets, fbo.textures);
      r := outputSockets[0].data;
    }
  }
}
