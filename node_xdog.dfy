/**
 * The extended difference-of-Gaussians (XDoG) node: seven sliders feeding the XDoG composite.
 */
module NodeXDoGs {
  import opened Wrappers
  import opened GpuModel
  import opened Framebuffers
  import opened FramebufferPools
  import opened Sockets
  import opened SliderBuilders
  import opened DependencyResolvers
  import opened CompositeXDoGs

  /** SLIDER_CONFIG. */
  const SliderConfigs: seq<SliderConfig> := [
    SliderConfig("radius e", Settings(0.01, 60.0, 0.001, 1.0)),
    SliderConfig("radius c", Settings(0.01, 60.0, 0.001, 1.6)),
    SliderConfig("radius m", Settings(0.01, 60.0, 0.001, 1.0)),
    SliderConfig("radius a", Settings(0.01, 60.0, 0.001, 1.0)),
    SliderConfig("tau", Settings(0.01, 200.0, 0.01, 1.0)),
    SliderConfig("epsilon", Settings(0.01, 1.0, 0.001, 0.7)),
    SliderConfig("phi", Settings(0.01, 60.0, 0.01, 1.0))
  ]

  /** A slider under every configured label. */
  predicate SlidersPresent(sliderMap: map<string, Slider>)
  {
    "radius e" in sliderMap
    && "radius c" in sliderMap
    && "radius m" in sliderMap
    && "radius a" in sliderMap
    && "tau" in sliderMap
    && "epsilon" in sliderMap
    && "phi" in sliderMap
  }

  /** Every configured label has its slider, carrying the entry's settings. */
  predicate SlidersConfigured(sliderMap: map<string, Slider>)
    reads sliderMap.Values
  {
    && SlidersPresent(sliderMap)
    && sliderMap["radius e"].Current() == Settings(0.01, 60.0, 0.001, 1.0)
    && sliderMap["radius c"].Current() == Settings(0.01, 60.0, 0.001, 1.6)
    && sliderMap["radius m"].Current() == Settings(0.01, 60.0, 0.001, 1.0)
    && sliderMap["radius a"].Current() == Settings(0.01, 60.0, 0.001, 1.0)
    && sliderMap["tau"].Current() == Settings(0.01, 200.0, 0.01, 1.0)
    && sliderMap["epsilon"].Current() == Settings(0.01, 1.0, 0.001, 0.7)
    && sliderMap["phi"].Current() == Settings(0.01, 60.0, 0.01, 1.0)
  }

  /** The sliders built from the configuration list are configured as it says. */
  lemma DefaultSliders(sliderMap: map<string, Slider>)
    requires Holds(sliderMap, SliderConfigs)
    ensures SlidersConfigured(sliderMap)
  {
    assert sliderMap[SliderConfigs[0].name].Current() == SliderConfigs[0].settings;
    assert sliderMap[SliderConfigs[1].name].Current() == SliderConfigs[1].settings;
    assert sliderMap[SliderConfigs[2].name].Current() == SliderConfigs[2].settings;
    assert sliderMap[SliderConfigs[3].name].Current() == SliderConfigs[3].settings;
    assert sliderMap[SliderConfigs[4].name].Current() == SliderConfigs[4].settings;
    assert sliderMap[SliderConfigs[5].name].Current() == SliderConfigs[5].settings;
    assert sliderMap[SliderConfigs[6].name].Current() == SliderConfigs[6].settings;
  }

  /** The labels are distinct and non-empty. */
  lemma ConfigsWellFormed()
    ensures DistinctNames(SliderConfigs)
    ensures forall i :: 0 <= i < |SliderConfigs| ==> SliderConfigs[i].name != ""
  {
  }

  class NodeXDoG {
    const filter: CompositeShaderXDoG
    const id: nat
    const inputSockets: seq<InputSocket>
    const outputSockets: seq<OutputSocket>
    var framebuffer: Option<Framebuffer>
    const dependencyResolver: DependencyResolver
    var sliderMap: map<string, Slider>

    /** The filter-node sockets: one image input and one image output, owned by the node. */
    predicate Shaped()
    {
      ImageFilterShape(id, inputSockets, outputSockets)
    }

    /** The sockets, and a slider under every configured label. */
    predicate Valid()
      reads this`sliderMap
    {
      Shaped() && SlidersPresent(sliderMap)
    }

    /** The composite's uniform values are the sliders' current values. */
    predicate UniformsFollowSliders()
      reads this`sliderMap, sliderMap.Values, filter
    {
      && SlidersPresent(sliderMap)
      && filter.sigmaC == sliderMap["radius c"].value
      && filter.sigmaE == sliderMap["radius e"].value
      && filter.sigmaM == sliderMap["radius m"].value
      && filter.sigmaA == sliderMap["radius a"].value
      && filter.tau == sliderMap["tau"].value
      && filter.phi == sliderMap["phi"].value
      && filter.epsilon == sliderMap["epsilon"].value
    }

    constructor (id: nat)
      ensures Valid() && this.id == id
      ensures fresh(inputSockets[0]) && inputSockets[0].source == None
      ensures fresh(outputSockets[0]) && outputSockets[0].data == None && outputSockets[0].connections == {}
      ensures framebuffer == None
      ensures fresh(dependencyResolver)
      ensures dependencyResolver.totalDependantCount == 0 && dependencyResolver.dependencyUsedCount == 0
      ensures fresh(filter) && SlidersConfigured(sliderMap)
      ensures UniformsFollowSliders()
    {
      this.id := id;
      filter := new CompositeShaderXDoG();
      dependencyResolver := new DependencyResolver();
      var ins, outs := ImageFilterSockets(id);
      inputSockets := ins;
      outputSockets := outs;
      framebuffer := None;
      sliderMap := map[];
      new;
      BuildSliders();
    }

    /** With the sliders at their configured values, the composite holds these uniforms. */
    lemma DefaultUniforms()
      requires UniformsFollowSliders() && SlidersConfigured(sliderMap)
      ensures filter.Params() == XDoGParams(1.6, 1.0, 1.0, 1.0, 1.0, 1.0, 0.7)
    {
    }

    /** isNodeNeeded asks the resolver. */
    method IsNodeNeeded() returns (b: bool)
      modifies dependencyResolver`dependencyUsedCount
      ensures (b, dependencyResolver.dependencyUsedCount)
        == Resolve(dependencyResolver.totalDependantCount, old(dependencyResolver.dependencyUsedCount))
    {
      b := dependencyResolver.IsResolved();
    }

    /** The slider loop of buildSliders: one slider per configuration entry. */
    method FillSliders()
      modifies this`sliderMap
      ensures sliderMap.Keys == old(sliderMap.Keys) + Names(SliderConfigs)
      ensures SlidersConfigured(sliderMap)
      ensures forall i :: 0 <= i < |SliderConfigs| ==> fresh(sliderMap[SliderConfigs[i].name])
    {
      ConfigsWellFormed();
      sliderMap := FillSliderMap(SliderConfigs, sliderMap);
      DefaultSliders(sliderMap);
    }

    /** buildSliders: one slider per configuration entry, then the uniforms follow them. */
    method BuildSliders()
      modifies this`sliderMap
      modifies filter`sigmaE, filter`sigmaC, filter`sigmaM, filter`sigmaA, filter`tau, filter`phi, filter`epsilon
      ensures SlidersConfigured(sliderMap)
      ensures UniformsFollowSliders()
    {
      FillSliders();
      UpdateUniformValues();
    }

    /**
     * updateUniformValues: the slider values in the composite's parameter order (radius c,
     * radius e, radius m, radius a, tau, phi, epsilon).
     */
    method UpdateUniformValues()
      requires SlidersPresent(sliderMap)
      modifies filter`sigmaE, filter`sigmaC, filter`sigmaM, filter`sigmaA, filter`tau, filter`phi, filter`epsilon
      ensures UniformsFollowSliders()
    {
      var radiusE := sliderMap["radius e"].value;
      var radiusC := sliderMap["radius c"].value;
      var radiusM := sliderMap["radius m"].value;
      var radiusA := sliderMap["radius a"].value;
      var tau := sliderMap["tau"].value;
      var epsilon := sliderMap["epsilon"].value;
      var phi := sliderMap["phi"].value;
      filter.SetUniformValues(radiusC, radiusE, radiusM, radiusA, tau, phi, epsilon);
    }

    /** The end of render: the target is kept, its attachments published, output 0 returned. */
    method KeepAndPublish(fbo: Framebuffer) returns (r: Option<Texture>)
      requires Shaped() && |outputSockets| <= |fbo.textures|
      modifies this`framebuffer, outputSockets`data
      ensures framebuffer == Some(fbo)
      ensures Values(outputSockets) == Published(fbo.textures, |outputSockets|)
      ensures r == Some(fbo.textures[0])
    {
      framebuffer := Some(fbo);
      Publish(outputSockets, fbo.textures);
      r := outputSockets[0].data;
    }

    /**
     * render: the node keeps the composite's target and publishes its attachments.
     */
    method Render(pool: FramebufferPool, textureWidth: int, textureHeight: int, inputTextures: seq<Texture>)
      returns (r: Option<Texture>)
      requires Shaped() && pool.Valid() && !pool.gpu.contextLost
      modifies this`framebuffer, outputSockets`data
      modifies pool`pool, pool`inUse, pool.gpu`nextTexture, pool.gpu`nextFramebuffer, pool.gpu`trace, pool.gpu`draws
      modifies filter.etfEigenvector`sigmaC, filter.etfEigenvector.gBlur`radius,
        filter.etfEigenvector`outputTextureCount
      ensures pool.Valid()
      ensures old(pool.gpu.nextTexture) <= pool.gpu.nextTexture
      ensures framebuffer.Some?
      ensures pool.HandsOut(framebuffer.value, old(pool.inUse), textureWidth, textureHeight, OutputTextureCount(StreamlineBlur))
      ensures old(pool.gpu.draws) <= pool.gpu.draws
      ensures XDoGRun(old(pool.gpu.draws), pool.gpu.draws, filter.Params(), inputTextures, framebuffer.value.textures)
      ensures old(pool.gpu.Allocated(inputTextures)) ==> AllAliasFree(pool.gpu.draws[|old(pool.gpu.draws)|..])
      ensures Values(outputSockets) == Published(framebuffer.value.textures, |outputSockets|)
      ensures r == Some(framebuffer.value.textures[0])
    {
      var fbo := filter.Render(pool, textureWidth, textureHeight, inputTextures);
      r := KeepAndPublish(fbo);
    }
  }
}
