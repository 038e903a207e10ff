/**
 * The luminance-quantization node: a "color count" slider feeding the quantization
 * kernel's single uniform, and the same swap-pass render as the inversion node.
 */
module NodeLuminanceQuantizations {
  import opened Wrappers
  import opened GpuModel
  import opened Framebuffers
  import opened FramebufferPools
  import opened Passes
  import opened Sockets
  import opened SliderBuilders
  import opened DependencyResolvers

  /** SLIDER_CONFIGS. */
  const SliderConfigs: seq<SliderConfig> := [SliderConfig("color count", Settings(2.0, 255.0, 1.0, 10.0))]

  /** The quantization kernel object: its one uniform value, 10 until set. */
  class ShaderLuminanceQuantization {
    var colorCount: real

    constructor ()
      ensures colorCount == 10.0
    {
      colorCount := 10.0;
    }

    method SetUniformValues(colorCount: real)
      modifies this`colorCount
      ensures this.colorCount == colorCount
    {
      this.colorCount := colorCount;
    }
  }

  class NodeLuminanceQuantization {
    const filter: ShaderLuminanceQuantization
    const id: nat
    const inputSockets: seq<InputSocket>
    const outputSockets: seq<OutputSocket>
    var framebuffer: Option<Framebuffer>
    const dependencyResolver: DependencyResolver
    var sliderMap: map<string, Slider>

    /** The filter-node sockets: one image input and one image output, owned by the node. */
    predicate Shaped()
    {
      ImageFilterShape(id, inputSockets, outputSockets)
    }

    /** The sockets, and a slider under every configured label. */
    predicate Valid()
      reads this`sliderMap
    {
      Shaped() && Names(SliderConfigs) <= sliderMap.Keys
    }

    /** The kernel's uniform is the color count slider's value. */
    predicate UniformsFollowSliders()
      reads this`sliderMap, sliderMap.Values, filter
    {
      "color count" in sliderMap && filter.colorCount == sliderMap["color count"].value
    }

    constructor (id: nat)
      ensures Valid() && this.id == id
      ensures fresh(inputSockets[0]) && inputSockets[0].source == None
      ensures fresh(outputSockets[0]) && outputSockets[0].data == None && outputSockets[0].connections == {}
      ensures framebuffer == None
      ensures fresh(dependencyResolver)
      ensures dependencyResolver.totalDependantCount == 0 && dependencyResolver.dependencyUsedCount == 0
      ensures fresh(filter) && sliderMap.Keys == Names(SliderConfigs) && Holds(sliderMap, SliderConfigs)
      ensures UniformsFollowSliders() && filter.colorCount == 10.0
    {
      this.id := id;
      filter := new ShaderLuminanceQuantization();
      dependencyResolver := new DependencyResolver();
      var ins, outs := ImageFilterSockets(id);
      inputSockets := ins;
      outputSockets := outs;
      framebuffer := None;
      sliderMap := map[];
      new;
      BuildSliders();
    }

    /** isNodeNeeded asks the resolver. */
    method IsNodeNeeded() returns (b: bool)
      modifies dependencyResolver`dependencyUsedCount
      ensures (b, dependencyResolver.dependencyUsedCount)
        == Resolve(dependencyResolver.totalDependantCount, old(dependencyResolver.dependencyUsedCount))
    {
      b := dependencyResolver.IsResolved();
    }

    /** buildSliders: one slider per configuration entry, then the uniforms follow them. */
    method BuildSliders()
      modifies this`sliderMap, filter`colorCount
      ensures sliderMap.Keys == old(sliderMap.Keys) + Names(SliderConfigs)
      ensures Holds(sliderMap, SliderConfigs)
      ensures forall i :: 0 <= i < |SliderConfigs| ==> fresh(sliderMap[SliderConfigs[i].name])
      ensures UniformsFollowSliders()
    {
      sliderMap := FillSliderMap(SliderConfigs, sliderMap);
      UpdateUniformValues();
    }

    /** updateUniformValues: the color count slider's value goes to the kernel. */
    method UpdateUniformValues()
      requires "color count" in sliderMap
      modifies filter`colorCount
      ensures UniformsFollowSliders()
    {
      var colorCount := sliderMap["color count"].value;
      filter.SetUniformValues(colorCount);
    }

    /**
     * render: the swap-pass idiom with the quantization kernel and its color count; the
     * target drawn into is the one the node keeps and publishes.
     */
    method Render(pool: FramebufferPool, textureWidth: int, textureHeight: int, inputTextures: seq<Texture>)
      returns (r: Option<Texture>)
      requires Shaped() && pool.Valid() && !pool.gpu.contextLost
      modifies this`framebuffer, outputSockets`data
      modifies pool`pool, pool`inUse, pool.gpu`nextTexture, pool.gpu`nextFramebuffer, pool.gpu`trace, pool.gpu`draws
      ensures pool.Valid()
      ensures old(pool.gpu.nextTexture) <= pool.gpu.nextTexture
      ensures framebuffer.Some?
      ensures pool.HandsOut(framebuffer.value, old(pool.inUse), textureWidth, textureHeight, |outputSockets|)
      ensures pool.gpu.draws == old(pool.gpu.draws)
        + [DrawRecord(LuminanceQuantization, [filter.colorCount], inputTextures, framebuffer.value.textures)]
      ensures old(pool.gpu.Allocated(inputTextures)) ==> SharesNone(framebuffer.value, inputTextures)
      ensures Values(outputSockets) == Published(framebuffer.value.textures, |outputSockets|)
      ensures r == Some(framebuffer.value.textures[0])
    {
      // outputSockets.length is 1, the kernel's attachment count: the swap-pass idiom.
      var fbo := SwapPass(pool, LuminanceQuantization, [filter.colorCount], inputTextures, textureWidth, textureHeight);
      framebuffer := Some(fbo);
      Publish(outputSockets, fbo.textures);
      r := outputSockets[0].data;
    }
  }
}
