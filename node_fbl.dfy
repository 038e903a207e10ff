/**
 * The flow-based bilateral (FBL) node: eight sliders feeding the FBL composite.
 */
module NodeFBLs {
  import opened Wrappers
  import opened GpuModel
  import opened Framebuffers
  import opened FramebufferPools
  import opened Sockets
  import opened SliderBuilders
  import opened DependencyResolvers
  import opened GaussianKernels
  import opened CompositeFBLs

  /** SLIDER_CONFIG. */
  const SliderConfigs: seq<SliderConfig> := [
    SliderConfig("radius e", Settings(0.01, 60.0, 0.001, 1.0)),
    SliderConfig("range radius e", Settings(0.01, 60.0, 0.001, 1.0)),
    SliderConfig("radius g", Settings(0.01, 60.0, 0.001, 1.0)),
    SliderConfig("range radius g", Settings(0.01, 60.0, 0.001, 1.0)),
    SliderConfig("etf kernel size", Settings(3.0, 21.0, 2.0, 3.0)),
    SliderConfig("color count", Settings(2.0, 255.0, 1.0, 10.0)),
    SliderConfig("iteration", Settings(1.0, 5.0, 1.0, 2.0)),
    SliderConfig("etf iteration", Settings(1.0, 5.0, 1.0, 2.0))
  ]

  /** A slider under every configured label. */
  predicate SlidersPresent(sliderMap: map<string, Slider>)
  {
    "radius e" in sliderMap
    && "range radius e" in sliderMap
    && "radius g" in sliderMap
    && "range radius g" in sliderMap
    && "etf kernel size" in sliderMap
    && "color count" in sliderMap
    && "iteration" in sliderMap
    && "etf iteration" in sliderMap
  }

  /** Every configured label has its slider, carrying the entry's settings. */
  predicate SlidersConfigured(sliderMap: map<string, Slider>)
    reads sliderMap.Values
  {
    && SlidersPresent(sliderMap)
    && sliderMap["radius e"].Current() == Settings(0.01, 60.0, 0.001, 1.0)
    && sliderMap["range radius e"].Current() == Settings(0.01, 60.0, 0.001, 1.0)
    && sliderMap["radius g"].Current() == Settings(0.01, 60.0, 0.001, 1.0)
    && sliderMap["range radius g"].Current() == Settings(0.01, 60.0, 0.001, 1.0)
    && sliderMap["etf kernel size"].Current() == Settings(3.0, 21.0, 2.0, 3.0)
    && sliderMap["color count"].Current() == Settings(2.0, 255.0, 1.0, 10.0)
    && sliderMap["iteration"].Current() == Settings(1.0, 5.0, 1.0, 2.0)
    && sliderMap["etf iteration"].Current() == Settings(1.0, 5.0, 1.0, 2.0)
  }

  /** The sliders built from the configuration list are configured as it says. */
  lemma DefaultSliders(sliderMap: map<string, Slider>)
    requires Holds(sliderMap, SliderConfigs)
    ensures SlidersConfigured(sliderMap)
  {
    assert sliderMap[SliderConfigs[0].name].Current() == SliderConfigs[0].settings;
    assert sliderMap[SliderConfigs[1].name].Current() == SliderConfigs[1].settings;
    assert sliderMap[SliderConfigs[2].name].Current() == SliderConfigs[2].settings;
    assert sliderMap[SliderConfigs[3].name].Current() == SliderConfigs[3].settings;
    assert sliderMap[SliderConfigs[4].name].Current() == SliderConfigs[4].settings;
    assert sliderMap[SliderConfigs[5].name].Current() == SliderConfigs[5].settings;
    assert sliderMap[SliderConfigs[6].name].Current() == SliderConfigs[6].settings;
    assert sliderMap[SliderConfigs[7].name].Current() == SliderConfigs[7].settings;
  }

  /** The labels are distinct and non-empty. */
  lemma ConfigsWellFormed()
    ensures DistinctNames(SliderConfigs)
    ensures forall i :: 0 <= i < |SliderConfigs| ==> SliderConfigs[i].name != ""
  {
  }

  class NodeFBL {
    const filter: CompositeShaderFBL
    const id: nat
    const inputSockets: seq<InputSocket>
    const outputSockets: seq<OutputSocket>
    var framebuffer: Option<Framebuffer>
    const dependencyResolver: DependencyResolver
    var sliderMap: map<string, Slider>

    /** The filter-node sockets: one image input and one image output, owned by the node. */
    predicate Shaped()
    {
      ImageFilterShape(id, inputSockets, outputSockets)
    }

    /** The sockets, and a slider under every configured label. */
    predicate Valid()
      reads this`sliderMap
    {
      Shaped() && SlidersPresent(sliderMap)
    }

    /** The composite's uniform values are the sliders' current values. */
    predicate UniformsFollowSliders()
      reads this`sliderMap, sliderMap.Values, filter
    {
      && SlidersPresent(sliderMap)
      && filter.etfKernelSize == sliderMap["etf kernel size"].value
      && filter.sigmaE == sliderMap["radius e"].value
      && filter.sigmaG == sliderMap["radius g"].value
      && filter.rangeSigmaE == sliderMap["range radius e"].value
      && filter.rangeSigmaG == sliderMap["range radius g"].value
      && filter.iteration == Ceil(sliderMap["iteration"].value)
      && filter.etfIteration == Ceil(sliderMap["etf iteration"].value)
      && filter.colorCount == sliderMap["color count"].value
    }

    constructor (id: nat)
      ensures Valid() && this.id == id
      ensures fresh(inputSockets[0]) && inputSockets[0].source == None
      ensures fresh(outputSockets[0]) && outputSockets[0].data == None && outputSockets[0].connections == {}
      ensures framebuffer == None
      ensures fresh(dependencyResolver)
      ensures dependencyResolver.totalDependantCount == 0 && dependencyResolver.dependencyUsedCount == 0
      ensures fresh(filter) && SlidersConfigured(sliderMap)
      ensures UniformsFollowSliders()
    {
      this.id := id;
      filter := new CompositeShaderFBL();
      dependencyResolver := new DependencyResolver();
      var ins, outs := ImageFilterSockets(id);
      inputSockets := ins;
      outputSockets := outs;
      framebuffer := None;
      sliderMap := map[];
      new;
      BuildSliders();
    }

    /** With the sliders at their configured values, the composite holds these uniforms. */
    lemma DefaultUniforms()
      requires UniformsFollowSliders() && SlidersConfigured(sliderMap)
      ensures filter.Params() == FBLParams(1.0, 1.0, 1.0, 1.0, 10.0)
      ensures filter.etfKernelSize == 3.0 && filter.iteration == 2 && filter.etfIteration == 2
    {
    }

    /** isNodeNeeded asks the resolver. */
    method IsNodeNeeded() returns (b: bool)
      modifies dependencyResolver`dependencyUsedCount
      ensures (b, dependencyResolver.dependencyUsedCount)
        == Resolve(dependencyResolver.totalDependantCount, old(dependencyResolver.dependencyUsedCount))
    {
      b := dependencyResolver.IsResolved();
    }

    /** The slider loop of buildSliders: one slider per configuration entry. */
    method FillSliders()
      modifies this`sliderMap
      ensures sliderMap.Keys == old(sliderMap.Keys) + Names(SliderConfigs)
      ensures SlidersConfigured(sliderMap)
      ensures forall i :: 0 <= i < |SliderConfigs| ==> fresh(sliderMap[SliderConfigs[i].name])
    {
      ConfigsWellFormed();
      sliderMap := FillSliderMap(SliderConfigs, sliderMap);
      DefaultSliders(sliderMap);
    }

    /** buildSliders: one slider per configuration entry, then the uniforms follow them. */
    method BuildSliders()
      modifies this`sliderMap
      modifies filter`iteration, filter`etfIteration, filter`sigmaE, filter`rangeSigmaE, filter`sigmaG, filter`rangeSigmaG,
        filter`etfKernelSize, filter`colorCount
      ensures SlidersConfigured(sliderMap)
      ensures UniformsFollowSliders()
    {
      FillSliders();
      UpdateUniformValues();
    }

    /**
     * updateUniformValues: the slider values in the composite's parameter order (etf kernel
     * size, radius e, radius g, range radius e, range radius g, iteration, etf iteration, color
     * count); the loop counts are the number of passes a `i < count` loop makes.
     */
    method UpdateUniformValues()
      requires SlidersPresent(sliderMap)
      modifies filter`iteration, filter`etfIteration, filter`sigmaE, filter`rangeSigmaE, filter`sigmaG, filter`rangeSigmaG,
        filter`etfKernelSize, filter`colorCount
      ensures UniformsFollowSliders()
    {
      var radiusE := sliderMap["radius e"].value;
      var rangeRadiusE := sliderMap["range radius e"].value;
      var radiusG := sliderMap["radius g"].value;
      var rangeRadiusG := sliderMap["range radius g"].value;
      var etfKernelSize := sliderMap["etf kernel size"].value;
      var colorCount := sliderMap["color count"].value;
      var iteration := sliderMap["iteration"].value;
      var etfIteration := sliderMap["etf iteration"].value;
      filter.SetUniformValues(etfKernelSize, radiusE, radiusG, rangeRadiusE, rangeRadiusG, Ceil(iteration),
                              Ceil(etfIteration), colorCount);
    }

    /** The end of render: the target is kept, its attachments published, output 0 returned. */
    method KeepAndPublish(fbo: Framebuffer) returns (r: Option<Texture>)
      requires Shaped() && |outputSockets| <= |fbo.textures|
      modifies this`framebuffer, outputSockets`data
      ensures framebuffer == Some(fbo)
      ensures Values(outputSockets) == Published(fbo.textures, |outputSockets|)
      ensures r == Some(fbo.textures[0])
    {
      framebuffer := Some(fbo);
      Publish(outputSockets, fbo.textures);
      r := outputSockets[0].data;
    }

    /**
     * render: the node keeps the composite's target and publishes its attachments.
     */
    method Render(pool: FramebufferPool, textureWidth: int, textureHeight: int, inputTextures: seq<Texture>)
      returns (r: Option<Texture>)
      requires Shaped() && pool.Valid() && !pool.gpu.contextLost
      requires filter.iteration >= 1 ==> |inputTextures| >= 1
      modifies this`framebuffer, outputSockets`data
      modifies pool`pool, pool`inUse, pool.gpu`nextTexture, pool.gpu`nextFramebuffer, pool.gpu`trace, pool.gpu`draws
      modifies filter.etf`etfKernelSize, filter.etf`etfIteration
      ensures pool.Valid()
      ensures old(pool.gpu.nextTexture) <= pool.gpu.nextTexture
      ensures framebuffer.Some?
      ensures pool.HandsOut(framebuffer.value, old(pool.inUse), textureWidth, textureHeight, OutputTextureCount(LuminanceQuantization))
      ensures old(pool.gpu.draws) <= pool.gpu.draws
      ensures FBLRun(old(pool.gpu.draws), pool.gpu.draws, filter.etfKernelSize, filter.etfIteration, filter.iteration,
                     filter.Params(), inputTextures, framebuffer.value.textures)
      ensures old(pool.gpu.Allocated(inputTextures)) ==> AllAliasFree(pool.gpu.draws[|old(pool.gpu.draws)|..])
      ensures Values(outputSockets) == Published(framebuffer.value.textures, |outputSockets|)
      ensures r == Some(framebuffer.value.textures[0])
    {
      var fbo := filter.Render(pool, textureWidth, textureHeight, inputTextures);
      r := KeepAndPublish(fbo);
    }
  }
}
