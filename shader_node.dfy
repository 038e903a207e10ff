/**
 * The ShaderNode interface: a node has an id, input and output sockets, the render target
 * it currently holds, a dependency resolver, `render` and `isNodeNeeded`. Its eight
 * implementations become the cases of one datatype, and each member dispatches to the
 * node class of the case.
 */
module ShaderNodes {
  import opened Wrappers
  import opened GpuModel
  import opened Framebuffers
  import opened FramebufferPools
  import opened Sockets
  import opened DependencyResolvers
  import opened NodeInputs
  import opened NodeInverts
  import opened NodeLuminanceQuantizations
  import opened NodeGaussianBlurs
  import opened NodeFBLs
  import opened NodeXDoGs
  import opened NodeCoherentLineDrawings
  import opened NodeAnisotropicKuwaharas

  /** The output sockets of a node, as objects. */
  function SocketObjects(outs: seq<OutputSocket>): (os: set<object>)
    ensures forall i :: 0 <= i < |outs| ==> outs[i] in os
  {
    set i | 0 <= i < |outs| :: outs[i] as object
  }

  /**
   * What a filter node's render leaves behind: it holds a pool target of the requested size
   * that was free before and is now the only one added to the in-use set, and it returned
   * that target's first attachment.
   */
  ghost predicate HoldsNewTarget(pool: FramebufferPool, before: set<Framebuffer>, width: int, height: int,
                                 held: Option<Framebuffer>, r: Option<Texture>)
    reads pool, if held.Some? then {held.value} else {}
  {
    && held.Some? && |held.value.textures| >= 1
    && pool.HandsOut(held.value, before, width, height, |held.value.textures|)
    && r == Some(held.value.textures[0])
  }

  /** NodeInvert.render seen through the node interface. */
  method RenderInvert(n: NodeInvert, pool: FramebufferPool, textureWidth: int, textureHeight: int, inputTextures: seq<Texture>)
    returns (r: Option<Texture>)
    requires n.Shaped() && pool.Valid() && !pool.gpu.contextLost
    requires |inputTextures| == |n.inputSockets|
    modifies n`framebuffer, n.outputSockets`data
    modifies pool`pool, pool`inUse, pool.gpu`nextTexture, pool.gpu`nextFramebuffer, pool.gpu`trace, pool.gpu`draws
    ensures pool.Valid() && Values(n.outputSockets) == [r]
    ensures HoldsNewTarget(pool, old(pool.inUse), textureWidth, textureHeight, n.framebuffer, r)
  {
    r := n.Render(pool, textureWidth, textureHeight, inputTextures);
  }

  /** NodeLuminanceQuantization.render seen through the node interface. */
  method RenderLuminanceQuantization(n: NodeLuminanceQuantization, pool: FramebufferPool, textureWidth: int, textureHeight: int, inputTextures: seq<Texture>)
    returns (r: Option<Texture>)
    requires n.Shaped() && pool.Valid() && !pool.gpu.contextLost
    requires |inputTextures| == |n.inputSockets|
    modifies n`framebuffer, n.outputSockets`data
    modifies pool`pool, pool`inUse, pool.gpu`nextTexture, pool.gpu`nextFramebuffer, pool.gpu`trace, pool.gpu`draws
    ensures pool.Valid() && Values(n.outputSockets) == [r]
    ensures HoldsNewTarget(pool, old(pool.inUse), textureWidth, textureHeight, n.framebuffer, r)
  {
    r := n.Render(pool, textureWidth, textureHeight, inputTextures);
  }

  /** NodeGaussianBlur.render seen through the node interface. */
  method RenderGaussianBlur(n: NodeGaussianBlur, pool: FramebufferPool, textureWidth: int, textureHeight: int, inputTextures: seq<Texture>)
    returns (r: Option<Texture>)
    requires n.Shaped() && pool.Valid() && !pool.gpu.contextLost
    requires |inputTextures| == |n.inputSockets|
    modifies n`framebuffer, n.outputSockets`data
    modifies pool`pool, pool`inUse, pool.gpu`nextTexture, pool.gpu`nextFramebuffer, pool.gpu`trace, pool.gpu`draws
    ensures pool.Valid() && Values(n.outputSockets) == [r]
    ensures HoldsNewTarget(pool, old(pool.inUse), textureWidth, textureHeight, n.framebuffer, r)
  {
    r := n.Render(pool, textureWidth, textureHeight, inputTextures);
  }

  /** NodeFBL.render seen through the node interface. */
  method RenderFBL(n: NodeFBL, pool: FramebufferPool, textureWidth: int, textureHeight: int, inputTextures: seq<Texture>)
    returns (r: Option<Texture>)
    requires n.Shaped() && pool.Valid() && !pool.gpu.contextLost
    requires |inputTextures| == |n.inputSockets|
    modifies n`framebuffer, n.outputSockets`data, n.filter.etf`etfKernelSize, n.filter.etf`etfIteration
    modifies pool`pool, pool`inUse, pool.gpu`nextTexture, pool.gpu`nextFramebuffer, pool.gpu`trace, pool.gpu`draws
    ensures pool.Valid() && Values(n.outputSockets) == [r]
    ensures HoldsNewTarget(pool, old(pool.inUse), textureWidth, textureHeight, n.framebuffer, r)
  {
    r := n.Render(pool, textureWidth, textureHeight, inputTextures);
  }

  /** NodeXDoG.render seen through the node interface. */
  method RenderXDoG(n: NodeXDoG, pool: FramebufferPool, textureWidth: int, textureHeight: int, inputTextures: seq<Texture>)
    returns (r: Option<Texture>)
    requires n.Shaped() && pool.Valid() && !pool.gpu.contextLost
    requires |inputTextures| == |n.inputSockets|
    modifies n`framebuffer, n.outputSockets`data, n.filter.etfEigenvector`sigmaC, n.filter.etfEigenvector.gBlur`radius,
      n.filter.etfEigenvector`outputTextureCount
    modifies pool`pool, pool`inUse, pool.gpu`nextTexture, pool.gpu`nextFramebuffer, pool.gpu`trace, pool.gpu`draws
    ensures pool.Valid() && Values(n.outputSockets) == [r]
    ensures HoldsNewTarget(pool, old(pool.inUse), textureWidth, textureHeight, n.framebuffer, r)
  {
    r := n.Render(pool, textureWidth, textureHeight, inputTextures);
  }

  /** NodeCoherentLineDrawing.render seen through the node interface. */
  method RenderCLD(n: NodeCoherentLineDrawing, pool: FramebufferPool, textureWidth: int, textureHeight: int, inputTextures: seq<Texture>)
    returns (r: Option<Texture>)
    requires n.Shaped() && pool.Valid() && !pool.gpu.contextLost
    requires |inputTextures| == |n.inputSockets|
    modifies n`framebuffer, n.outputSockets`data, n.filter.etf`etfKernelSize, n.filter.etf`etfIteration
    modifies pool`pool, pool`inUse, pool.gpu`nextTexture, pool.gpu`nextFramebuffer, pool.gpu`trace, pool.gpu`draws
    ensures pool.Valid() && Values(n.outputSockets) == [r]
    ensures HoldsNewTarget(pool, old(pool.inUse), textureWidth, textureHeight, n.framebuffer, r)
  {
    r := n.Render(pool, textureWidth, textureHeight, inputTextures);
  }

  /** NodeAnisotropicKuwahara.render seen through the node interface. */
  method RenderKuwahara(n: NodeAnisotropicKuwahara, pool: FramebufferPool, textureWidth: int, textureHeight: int, inputTextures: seq<Texture>)
    returns (r: Option<Texture>)
    requires n.Shaped() && pool.Valid() && !pool.gpu.contextLost
    requires |inputTextures| == |n.inputSockets|
    modifies n`framebuffer, n.outputSockets`data, n.filter.eigenvector`sigmaC, n.filter.eigenvector`outputTextureCount,
      n.filter.eigenvector.gBlur`radius
    modifies pool`pool, pool`inUse, pool.gpu`nextTexture, pool.gpu`nextFramebuffer, pool.gpu`trace, pool.gpu`draws
    ensures pool.Valid() && Values(n.outputSockets) == [r]
    ensures HoldsNewTarget(pool, old(pool.inUse), textureWidth, textureHeight, n.framebuffer, r)
  {
    r := n.Render(pool, textureWidth, textureHeight, inputTextures);
  }

  datatype ShaderNode =
    | InputNode(input: NodeInput)
    | InvertNode(invert: NodeInvert)
    | LuminanceQuantizationNode(quantization: NodeLuminanceQuantization)
    | GaussianBlurNode(blur: NodeGaussianBlur)
    | FBLNode(fbl: NodeFBL)
    | XDoGNode(xdog: NodeXDoG)
    | CLDNode(cld: NodeCoherentLineDrawing)
    | KuwaharaNode(kuwahara: NodeAnisotropicKuwahara)
  {
    function Id(): nat
    {
      match this
      case InputNode(n) => n.id
      case InvertNode(n) => n.id
      case LuminanceQuantizationNode(n) => n.id
      case GaussianBlurNode(n) => n.id
      case FBLNode(n) => n.id
      case XDoGNode(n) => n.id
      case CLDNode(n) => n.id
      case KuwaharaNode(n) => n.id
    }

    function InputSockets(): seq<InputSocket>
    {
      match this
      case InputNode(n) => n.inputSockets
      case InvertNode(n) => n.inputSockets
      case LuminanceQuantizationNode(n) => n.inputSockets
      case GaussianBlurNode(n) => n.inputSockets
      case FBLNode(n) => n.inputSockets
      case XDoGNode(n) => n.inputSockets
      case CLDNode(n) => n.inputSockets
      case KuwaharaNode(n) => n.inputSockets
    }

    function OutputSockets(): seq<OutputSocket>
    {
      match this
      case InputNode(n) => n.outputSockets
      case InvertNode(n) => n.outputSockets
      case LuminanceQuantizationNode(n) => n.outputSockets
      case GaussianBlurNode(n) => n.outputSockets
      case FBLNode(n) => n.outputSockets
      case XDoGNode(n) => n.outputSockets
      case CLDNode(n) => n.outputSockets
      case KuwaharaNode(n) => n.outputSockets
    }

    function Resolver(): DependencyResolver
    {
      match this
      case InputNode(n) => n.dependencyResolver
      case InvertNode(n) => n.dependencyResolver
      case LuminanceQuantizationNode(n) => n.dependencyResolver
      case GaussianBlurNode(n) => n.dependencyResolver
      case FBLNode(n) => n.dependencyResolver
      case XDoGNode(n) => n.dependencyResolver
      case CLDNode(n) => n.dependencyResolver
      case KuwaharaNode(n) => n.dependencyResolver
    }

    /** The node object of the case. */
    function Object(): object
    {
      match this
      case InputNode(n) => n
      case InvertNode(n) => n
      case LuminanceQuantizationNode(n) => n
      case GaussianBlurNode(n) => n
      case FBLNode(n) => n
      case XDoGNode(n) => n
      case CLDNode(n) => n
      case KuwaharaNode(n) => n
    }

    /** The `framebuffer` field: the render target the node holds, if any. */
    function HeldFramebuffer(): Option<Framebuffer>
      reads Object()
    {
      match this
      case InputNode(n) => n.framebuffer
      case InvertNode(n) => n.framebuffer
      case LuminanceQuantizationNode(n) => n.framebuffer
      case GaussianBlurNode(n) => n.framebuffer
      case FBLNode(n) => n.framebuffer
      case XDoGNode(n) => n.framebuffer
      case CLDNode(n) => n.framebuffer
      case KuwaharaNode(n) => n.framebuffer
    }

    /**
     * Everything render and isNodeNeeded may change: the node object, its output sockets,
     * its resolver, and the inner composite objects whose loop counts a render sets.
     */
    ghost function Frame(): set<object>
    {
      {Object(), Resolver()} + SocketObjects(OutputSockets()) +
      match this
      case FBLNode(n) => {n.filter.etf}
      case XDoGNode(n) => {n.filter.etfEigenvector, n.filter.etfEigenvector.gBlur}
      case CLDNode(n) => {n.filter.etf}
      case KuwaharaNode(n) => {n.filter.eigenvector, n.filter.eigenvector.gBlur}
      case _ => {}
    }

    /** The only output sockets among a node's objects are its own outputs. */
    lemma FrameOutputs(o: OutputSocket)
      ensures o in Frame() ==> o in OutputSockets()
    {
    }

    /** No input socket is among a node's objects, so a render never relinks one. */
    lemma FrameHasNoInput(t: InputSocket)
      ensures t !in Frame()
    {
    }

    /** The socket shape each node's constructor gives it. */
    predicate Shaped()
    {
      match this
      case InputNode(n) => n.Shaped()
      case InvertNode(n) => n.Shaped()
      case LuminanceQuantizationNode(n) => n.Shaped()
      case GaussianBlurNode(n) => n.Shaped()
      case FBLNode(n) => n.Shaped()
      case XDoGNode(n) => n.Shaped()
      case CLDNode(n) => n.Shaped()
      case KuwaharaNode(n) => n.Shaped()
    }

    /** Every node has exactly one output; only the input node has no input. */
    lemma ShapedSockets()
      requires Shaped()
      ensures |OutputSockets()| == 1 && OutputSockets()[0].nodeId == Id()
      ensures |InputSockets()| == if InputNode? then 0 else 1
      ensures forall i :: 0 <= i < |InputSockets()| ==> InputSockets()[i].nodeId == Id()
    {
    }

    /**
     * render, whichever the node: the node publishes on its one output the texture it
     * returns. The input node returns its start texture and leaves the pool alone; every
     * other node holds afterwards a pool target of the requested size that was free
     * before and is now the only one added to the in-use set, and returns its first
     * attachment.
     */
    method Render(pool: FramebufferPool, textureWidth: int, textureHeight: int, inputTextures: seq<Texture>)
      returns (r: Option<Texture>)
      requires Shaped() && pool.Valid() && !pool.gpu.contextLost
      requires |inputTextures| == |InputSockets()|
      modifies Frame()
      modifies pool`pool, pool`inUse, pool.gpu`nextTexture, pool.gpu`nextFramebuffer, pool.gpu`trace, pool.gpu`draws
      ensures pool.Valid()
      ensures r.Some? && Values(OutputSockets()) == [r]
      ensures InputNode? ==> r == Some(input.startTexture) && pool.inUse == old(pool.inUse)
      ensures !InputNode? ==> HoldsNewTarget(pool, old(pool.inUse), textureWidth, textureHeight, HeldFramebuffer(), r)
    {
      match this
      case InputNode(n) =>
        r := n.Render();
      case InvertNode(n) =>
        r := RenderInvert(n, pool, textureWidth, textureHeight, inputTextures);
      case LuminanceQuantizationNode(n) =>
        r := RenderLuminanceQuantization(n, pool, textureWidth, textureHeight, inputTextures);
      case GaussianBlurNode(n) =>
        r := RenderGaussianBlur(n, pool, textureWidth, textureHeight, inputTextures);
      case FBLNode(n) =>
        r := RenderFBL(n, pool, textureWidth, textureHeight, inputTextures);
      case XDoGNode(n) =>
        r := RenderXDoG(n, pool, textureWidth, textureHeight, inputTextures);
      case CLDNode(n) =>
        r := RenderCLD(n, pool, textureWidth, textureHeight, inputTextures);
      case KuwaharaNode(n) =>
        r := RenderKuwahara(n, pool, textureWidth, textureHeight, inputTextures);
    }

    /** isNodeNeeded: one call of the node's resolver gate. */
    method IsNodeNeeded() returns (b: bool)
      modifies Resolver()`dependencyUsedCount
      ensures (b, Resolver().dependencyUsedCount)
        == Resolve(Resolver().totalDependantCount, old(Resolver().dependencyUsedCount))
    {
      match this
      case InputNode(n) => b := n.IsNodeNeeded();
      case InvertNode(n) => b := n.IsNodeNeeded();
      case LuminanceQuantizationNode(n) => b := n.IsNodeNeeded();
      case GaussianBlurNode(n) => b := n.IsNodeNeeded();
      case FBLNode(n) => b := n.IsNodeNeeded();
      case XDoGNode(n) => b := n.IsNodeNeeded();
      case CLDNode(n) => b := n.IsNodeNeeded();
      case KuwaharaNode(n) => b := n.IsNodeNeeded();
    }
  }
}
