/**
 * The coherent-line-drawing node: seven sliders feeding the line-drawing composite, with
 * the thickness slider as the first edge blur's sigma.
 */
module NodeCoherentLineDrawings {
  import opened Wrappers
  import opened GpuModel
  import opened Framebuffers
  import opened FramebufferPools
  import opened Sockets
  import opened SliderBuilders
  import opened DependencyResolvers
  import opened GaussianKernels
  import opened CompositeCoherentLineDrawings

  /** SLIDER_CONFIG. */
  const SliderConfigs: seq<SliderConfig> := [
    SliderConfig("thickness", Settings(0.01, 60.0, 0.001, 1.6)),
    SliderConfig("radius m", Settings(0.01, 60.0, 0.001, 1.5)),
    SliderConfig("etf kernel size", Settings(3.0, 21.0, 2.0, 7.0)),
    SliderConfig("tau", Settings(0.1, 1.0, 0.0001, 0.92)),
    SliderConfig("iteration", Settings(1.0, 5.0, 1.0, 2.0)),
    SliderConfig("etf iteration", Settings(1.0, 5.0, 1.0, 2.0)),
    SliderConfig("p", Settings(0.1, 1.0, 0.0001, 0.9))
  ]

  /** A slider under every configured label. */
  predicate SlidersPresent(sliderMap: map<string, Slider>)
  {
    "thickness" in sliderMap
    && "radius m" in sliderMap
    && "etf kernel size" in sliderMap
    && "tau" in sliderMap
    && "iteration" in sliderMap
    && "etf iteration" in sliderMap
    && "p" in sliderMap
  }

  /** Every configured label has its slider, carrying the entry's settings. */
  predicate SlidersConfigured(sliderMap: map<string, Slider>)
    reads sliderMap.Values
  {
    && SlidersPresent(sliderMap)
    && sliderMap["thickness"].Current() == Settings(0.01, 60.0, 0.001, 1.6)
    && sliderMap["radius m"].Current() == Settings(0.01, 60.0, 0.001, 1.5)
    && sliderMap["etf kernel size"].Current() == Settings(3.0, 21.0, 2.0, 7.0)
    && sliderMap["tau"].Current() == Settings(0.1, 1.0, 0.0001, 0.92)
    && sliderMap["iteration"].Current() == Settings(1.0, 5.0, 1.0, 2.0)
    && sliderMap["etf iteration"].Current() == Settings(1.0, 5.0, 1.0, 2.0)
    && sliderMap["p"].Current() == Settings(0.1, 1.0, 0.0001, 0.9)
  }

  /** The sliders built from the configuration list are configured as it says. */
  lemma DefaultSliders(sliderMap: map<string, Slider>)
    requires Holds(sliderMap, SliderConfigs)
    ensures SlidersConfigured(sliderMap)
  {
    assert sliderMap[SliderConfigs[0].name].Current() == SliderConfigs[0].settings;
    assert sliderMap[SliderConfigs[1].name].Current() == SliderConfigs[1].settings;
    assert sliderMap[SliderConfigs[2].name].Current() == SliderConfigs[2].settings;
    assert sliderMap[SliderConfigs[3].name].Current() == SliderConfigs[3].settings;
    assert sliderMap[SliderConfigs[4].name].Current() == SliderConfigs[4].settings;
    assert sliderMap[SliderConfigs[5].name].Current() == SliderConfigs[5].settings;
    assert sliderMap[SliderConfigs[6].name].Current() == SliderConfigs[6].settings;
  }

  /** The labels are distinct and non-empty. */
  lemma ConfigsWellFormed()
    ensures DistinctNames(SliderConfigs)
    ensures forall i :: 0 <= i < |SliderConfigs| ==> SliderConfigs[i].name != ""
  {
  }

  class NodeCoherentLineDrawing {
    const filter: CompositeShaderCoherentLineDrawing
    const id: nat
    const inputSockets: seq<InputSocket>
    const outputSockets: seq<OutputSocket>
    var framebuffer: Option<Framebuffer>
    const dependencyResolver: DependencyResolver
    var sliderMap: map<string, Slider>

    /** The filter-node sockets: one image input and one image output, owned by the node. */
    predicate Shaped()
    {
      ImageFilterShape(id, inputSockets, outputSockets)
    }

    /** The sockets, and a slider under every configured label. */
    predicate Valid()
      reads this`sliderMap
    {
      Shaped() && SlidersPresent(sliderMap)
    }

    /** The composite's uniform values are the sliders' current values, sigmaC included, as the corrected setter leaves them. */
    predicate UniformsFollowSliders()
      reads this`sliderMap, sliderMap.Values, filter
    {
      && SlidersPresent(sliderMap)
      && filter.sigmaC == sliderMap["thickness"].value
      && filter.sigmaS == sliderMap["thickness"].value * Scalar
      && filter.sigmaM == sliderMap["radius m"].value
      && filter.etfKernelSize == sliderMap["etf kernel size"].value
      && filter.tau == sliderMap["tau"].value
      && filter.p == sliderMap["p"].value
      && filter.iteration == Ceil(sliderMap["iteration"].value)
      && filter.etfIteration == Ceil(sliderMap["etf iteration"].value)
    }

    constructor (id: nat)
      ensures Valid() && this.id == id
      ensures fresh(inputSockets[0]) && inputSockets[0].source == None
      ensures fresh(outputSockets[0]) && outputSockets[0].data == None && outputSockets[0].connections == {}
      ensures framebuffer == None
      ensures fresh(dependencyResolver)
      ensures dependencyResolver.totalDependantCount == 0 && dependencyResolver.dependencyUsedCount == 0
      ensures fresh(filter) && SlidersConfigured(sliderMap)
      ensures UniformsFollowSliders()
    {
      this.id := id;
      filter := new CompositeShaderCoherentLineDrawing();
      dependencyResolver := new DependencyResolver();
      var ins, outs := ImageFilterSockets(id);
      inputSockets := ins;
      outputSockets := outs;
      framebuffer := None;
      sliderMap := map[];
      new;
      BuildSliders();
    }

    /** With the sliders at their configured values, the composite holds these uniforms. */
    lemma DefaultUniforms()
      requires UniformsFollowSliders() && SlidersConfigured(sliderMap)
      ensures filter.Params() == CLDParams(0.9, 1.6 * Scalar, 1.6, 1.5, 0.92)
      ensures filter.etfKernelSize == 7.0 && filter.iteration == 2 && filter.etfIteration == 2
    {
    }

    /** isNodeNeeded asks the resolver. */
    method IsNodeNeeded() returns (b: bool)
      modifies dependencyResolver`dependencyUsedCount
      ensures (b, dependencyResolver.dependencyUsedCount)
        == Resolve(dependencyResolver.totalDependantCount, old(dependencyResolver.dependencyUsedCount))
    {
      b := dependencyResolver.IsResolved();
    }

    /** The slider loop of buildSliders: one slider per configuration entry. */
    method FillSliders()
      modifies this`sliderMap
      ensures sliderMap.Keys == old(sliderMap.Keys) + Names(SliderConfigs)
      ensures SlidersConfigured(sliderMap)
      ensures forall i :: 0 <= i < |SliderConfigs| ==> fresh(sliderMap[SliderConfigs[i].name])
    {
      ConfigsWellFormed();
      sliderMap := FillSliderMap(SliderConfigs, sliderMap);
      DefaultSliders(sliderMap);
    }

    /** buildSliders: one slider per configuration entry, then the uniforms follow them. */
    method BuildSliders()
      modifies this`sliderMap
      modifies filter`p, filter`sigmaS, filter`sigmaC, filter`tau, filter`etfKernelSize, filter`sigmaM, filter`iteration,
        filter`etfIteration
      ensures SlidersConfigured(sliderMap)
      ensures UniformsFollowSliders()
    {
      FillSliders();
      UpdateUniformValues();
    }

    /**
     * updateUniformValues: the slider values in the composite's parameter order (thickness,
     * radius m, etf kernel size, tau, p, iteration, etf iteration), through the corrected
     * setter that makes the thickness the first edge blur's sigma.
     */
    method UpdateUniformValues()
      requires SlidersPresent(sliderMap)
      modifies filter`p, filter`sigmaS, filter`sigmaC, filter`tau, filter`etfKernelSize, filter`sigmaM, filter`iteration,
        filter`etfIteration
      ensures UniformsFollowSliders()
    {
      var thickness := sliderMap["thickness"].value;
      var radiusM := sliderMap["radius m"].value;
      var etfKernelSize := sliderMap["etf kernel size"].value;
      var tau := sliderMap["tau"].value;
      var iteration := sliderMap["iteration"].value;
      var etfIteration := sliderMap["etf iteration"].value;
      var p := sliderMap["p"].value;
      filter.SetUniformValues(thickness, radiusM, etfKernelSize, tau, p, Ceil(iteration), Ceil(etfIteration));
    }

    /** The end of render: the target is kept, its attachments published, output 0 returned. */
    method KeepAndPublish(fbo: Framebuffer) returns (r: Option<Texture>)
      requires Shaped() && |outputSockets| <= |fbo.textures|
      modifies this`framebuffer, outputSockets`data
      ensures framebuffer == Some(fbo)
      ensures Values(outputSockets) == Published(fbo.textures, |outputSockets|)
      ensures r == Some(fbo.textures[0])
    {
      framebuffer := Some(fbo);
      Publish(outputSockets, fbo.textures);
      r := outputSockets[0].data;
    }

    /**
     * render: the node keeps the composite's target and publishes its attachments.
     */
    method Render(pool: FramebufferPool, textureWidth: int, textureHeight: int, inputTextures: seq<Texture>)
      returns (r: Option<Texture>)
      requires Shaped() && pool.Valid() && !pool.gpu.contextLost
      requires filter.iteration >= 2 ==> |inputTextures| >= 1
      modifies this`framebuffer, outputSockets`data
      modifies pool`pool, pool`inUse, pool.gpu`nextTexture, pool.gpu`nextFramebuffer, pool.gpu`trace, pool.gpu`draws
      modifies filter.etf`etfKernelSize, filter.etf`etfIteration
      ensures pool.Valid()
      ensures old(pool.gpu.nextTexture) <= pool.gpu.nextTexture
      ensures framebuffer.Some?
      ensures pool.HandsOut(framebuffer.value, old(pool.inUse), textureWidth, textureHeight, 1)
      ensures old(pool.gpu.draws) <= pool.gpu.draws
      ensures CLDRun(old(pool.gpu.draws), pool.gpu.draws, filter.etfKernelSize, filter.etfIteration, filter.iteration,
                     filter.Params(), inputTextures, framebuffer.value.textures)
      ensures old(pool.gpu.Allocated(inputTextures)) ==> AllAliasFree(pool.gpu.draws[|old(pool.gpu.draws)|..])
      ensures Values(outputSockets) == Published(framebuffer.value.textures, |outputSockets|)
      ensures r == Some(framebuffer.value.textures[0])
    {
      var fbo := filter.Render(pool, textureWidth, textureHeight, inputTextures);
      r := KeepAndPublish(fbo);
    }
  }
}
