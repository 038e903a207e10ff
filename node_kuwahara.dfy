/**
 * The anisotropic Kuwahara node: seven sliders feeding the Kuwahara composite; the angle
 * slider becomes the composite's zero crossing.
 */
module NodeAnisotropicKuwaharas {
  import opened Wrappers
  import opened GpuModel
  import opened Framebuffers
  import opened FramebufferPools
  import opened Sockets
  import opened SliderBuilders
  import opened DependencyResolvers
  import opened CompositeAnisotropicKuwaharas

  /** SLIDER_CONFIG. */
  const SliderConfigs: seq<SliderConfig> := [
    SliderConfig("radius", Settings(4.0, 30.0, 2.0, 6.0)),
    SliderConfig("hardness", Settings(1.0, 100.0, 1.0, 50.0)),
    SliderConfig("sharpness", Settings(1.0, 21.0, 1.0, 10.0)),
    SliderConfig("zeta", Settings(1.0, 3.0, 0.1, 1.0)),
    SliderConfig("angle", Settings(180.0, 360.0, 0.1, 240.0)),
    SliderConfig("alpha", Settings(0.01, 2.0, 0.01, 1.0)),
    SliderConfig("sigma", Settings(0.01, 60.0, 0.01, 1.6))
  ]

  /** A slider under every configured label. */
  predicate SlidersPresent(sliderMap: map<string, Slider>)
  {
    "radius" in sliderMap
    && "hardness" in sliderMap
    && "sharpness" in sliderMap
    && "zeta" in sliderMap
    && "angle" in sliderMap
    && "alpha" in sliderMap
    && "sigma" in sliderMap
  }

  /** Every configured label has its slider, carrying the entry's settings. */
  predicate SlidersConfigured(sliderMap: map<string, Slider>)
    reads sliderMap.Values
  {
    && SlidersPresent(sliderMap)
    && sliderMap["radius"].Current() == Settings(4.0, 30.0, 2.0, 6.0)
    && sliderMap["hardness"].Current() == Settings(1.0, 100.0, 1.0, 50.0)
    && sliderMap["sharpness"].Current() == Settings(1.0, 21.0, 1.0, 10.0)
    && sliderMap["zeta"].Current() == Settings(1.0, 3.0, 0.1, 1.0)
    && sliderMap["angle"].Current() == Settings(180.0, 360.0, 0.1, 240.0)
    && sliderMap["alpha"].Current() == Settings(0.01, 2.0, 0.01, 1.0)
    && sliderMap["sigma"].Current() == Settings(0.01, 60.0, 0.01, 1.6)
  }

  /** The sliders built from the configuration list are configured as it says. */
  lemma DefaultSliders(sliderMap: map<string, Slider>)
    requires Holds(sliderMap, SliderConfigs)
    ensures SlidersConfigured(sliderMap)
  {
    assert sliderMap[SliderConfigs[0].name].Current() == SliderConfigs[0].settings;
    assert sliderMap[SliderConfigs[1].name].Current() == SliderConfigs[1].settings;
    assert sliderMap[SliderConfigs[2].name].Current() == SliderConfigs[2].settings;
    assert sliderMap[SliderConfigs[3].name].Current() == SliderConfigs[3].settings;
    assert sliderMap[SliderConfigs[4].name].Current() == SliderConfigs[4].settings;
    assert sliderMap[SliderConfigs[5].name].Current() == SliderConfigs[5].settings;
    assert sliderMap[SliderConfigs[6].name].Current() == SliderConfigs[6].settings;
  }

  /** The labels are distinct and non-empty. */
  lemma ConfigsWellFormed()
    ensures DistinctNames(SliderConfigs)
    ensures forall i :: 0 <= i < |SliderConfigs| ==> SliderConfigs[i].name != ""
  {
  }

  class NodeAnisotropicKuwahara {
    const filter: CompositeShaderAnisotropicKuwahara
    const id: nat
    const inputSockets: seq<InputSocket>
    const outputSockets: seq<OutputSocket>
    var framebuffer: Option<Framebuffer>
    const dependencyResolver: DependencyResolver
    var sliderMap: map<string, Slider>

    /** The filter-node sockets: one image input and one image output, owned by the node. */
    predicate Shaped()
    {
      ImageFilterShape(id, inputSockets, outputSockets)
    }

    /** The sockets, and a slider under every configured label. */
    predicate Valid()
      reads this`sliderMap
    {
      Shaped() && SlidersPresent(sliderMap)
    }

    /** The composite's uniform values are the sliders' current values. */
    predicate UniformsFollowSliders()
      reads this`sliderMap, sliderMap.Values, filter
    {
      && SlidersPresent(sliderMap)
      && filter.radius == sliderMap["radius"].value
      && filter.hardness == sliderMap["hardness"].value
      && filter.sharpness == sliderMap["sharpness"].value
      && filter.zeta == sliderMap["zeta"].value
      && filter.zeroCrossing == sliderMap["angle"].value * (Pi / 8.0)
      && filter.alpha == sliderMap["alpha"].value
      && filter.sigma == sliderMap["sigma"].value
    }

    constructor (id: nat)
      ensures Valid() && this.id == id
      ensures fresh(inputSockets[0]) && inputSockets[0].source == None
      ensures fresh(outputSockets[0]) && outputSockets[0].data == None && outputSockets[0].connections == {}
      ensures framebuffer == None
      ensures fresh(dependencyResolver)
      ensures dependencyResolver.totalDependantCount == 0 && dependencyResolver.dependencyUsedCount == 0
      ensures fresh(filter) && SlidersConfigured(sliderMap)
      ensures UniformsFollowSliders()
    {
      this.id := id;
      filter := new CompositeShaderAnisotropicKuwahara();
      dependencyResolver := new DependencyResolver();
      var ins, outs := ImageFilterSockets(id);
      inputSockets := ins;
      outputSockets := outs;
      framebuffer := None;
      sliderMap := map[];
      new;
      BuildSliders();
    }

    /** With the sliders at their configured values, the composite holds these uniforms. */
    lemma DefaultUniforms()
      requires UniformsFollowSliders() && SlidersConfigured(sliderMap)
      ensures filter.Params() == KuwaharaParams(6.0, 50.0, 10.0, 1.0, 240.0 * (Pi / 8.0), 1.0) && filter.sigma == 1.6
    {
    }

    /** isNodeNeeded asks the resolver. */
    method IsNodeNeeded() returns (b: bool)
      modifies dependencyResolver`dependencyUsedCount
      ensures (b, dependencyResolver.dependencyUsedCount)
        == Resolve(dependencyResolver.totalDependantCount, old(dependencyResolver.dependencyUsedCount))
    {
      b := dependencyResolver.IsResolved();
    }

    /** The slider loop of buildSliders: one slider per configuration entry. */
    method FillSliders()
      modifies this`sliderMap
      ensures sliderMap.Keys == old(sliderMap.Keys) + Names(SliderConfigs)
      ensures SlidersConfigured(sliderMap)
      ensures forall i :: 0 <= i < |SliderConfigs| ==> fresh(sliderMap[SliderConfigs[i].name])
    {
      ConfigsWellFormed();
      sliderMap := FillSliderMap(SliderConfigs, sliderMap);
      DefaultSliders(sliderMap);
    }

    /** buildSliders: one slider per configuration entry, then the uniforms follow them. */
    method BuildSliders()
      modifies this`sliderMap
      modifies filter`radius, filter`hardness, filter`sharpness, filter`zeta, filter`zeroCrossing, filter`alpha, filter`sigma
      ensures SlidersConfigured(sliderMap)
      ensures UniformsFollowSliders()
    {
      FillSliders();
      UpdateUniformValues();
    }

    /**
     * updateUniformValues: the slider values in the composite's parameter order (radius,
     * hardness, sharpness, zeta, angle, alpha, sigma).
     */
    method UpdateUniformValues()
      requires SlidersPresent(sliderMap)
      modifies filter`radius, filter`hardness, filter`sharpness, filter`zeta, filter`zeroCrossing, filter`alpha, filter`sigma
      ensures UniformsFollowSliders()
    {
      var radius := sliderMap["radius"].value;
      var hardness := sliderMap["hardness"].value;
      var sharpness := sliderMap["sharpness"].value;
      var zeta := sliderMap["zeta"].value;
      var angle := sliderMap["angle"].value;
      var sigma := sliderMap["sigma"].value;
      var alpha := sliderMap["alpha"].value;
      filter.SetUniformValues(radius, hardness, sharpness, zeta, angle, alpha, sigma);
    }

    /** The end of render: the target is kept, its attachments published, output 0 returned. */
    method KeepAndPublish(fbo: Framebuffer) returns (r: Option<Texture>)
      requires Shaped() && |outputSockets| <= |fbo.textures|
      modifies this`framebuffer, outputSockets`data
      ensures framebuffer == Some(fbo)
      ensures Values(outputSockets) == Published(fbo.textures, |outputSockets|)
      ensures r == Some(fbo.textures[0])
    {
      framebuffer := Some(fbo);
      Publish(outputSockets, fbo.textures);
      r := outputSockets[0].data;
    }

    /**
     * render: the node keeps the composite's target and publishes its attachments.
     */
    method Render(pool: FramebufferPool, textureWidth: int, textureHeight: int, inputTextures: seq<Texture>)
      returns (r: Option<Texture>)
      requires Shaped() && pool.Valid() && !pool.gpu.contextLost
      modifies this`framebuffer, outputSockets`data
      modifies pool`pool, pool`inUse, pool.gpu`nextTexture, pool.gpu`nextFramebuffer, pool.gpu`trace, pool.gpu`draws
      modifies filter.eigenvector`sigmaC, filter.eigenvector`outputTextureCount,
        filter.eigenvector.gBlur`radius
      ensures pool.Valid()
      ensures old(pool.gpu.nextTexture) <= pool.gpu.nextTexture
      ensures framebuffer.Some?
      ensures pool.HandsOut(framebuffer.value, old(pool.inUse), textureWidth, textureHeight, OutputTextureCount(AnisotropicKuwaharaPass))
      ensures old(pool.gpu.draws) <= pool.gpu.draws
      ensures KuwaharaRun(old(pool.gpu.draws), pool.gpu.draws, filter.sigma, filter.Params(), inputTextures,
                          framebuffer.value.textures)
      ensures old(pool.gpu.Allocated(inputTextures)) ==> AllAliasFree(pool.gpu.draws[|old(pool.gpu.draws)|..])
      ensures Values(outputSockets) == Published(framebuffer.value.textures, |outputSockets|)
      ensures r == Some(framebuffer.value.textures[0])
    {
      var fbo := filter.Render(pool, textureWidth, textureHeight, inputTextures);
      r := KeepAndPublish(fbo);
    }
  }
}
