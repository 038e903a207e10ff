/**
 * The Gaussian-blur node: a "radius" slider and the separable blur composite. Unlike the
 * other nodes, building the sliders does not push their values into the composite, so a
 * new node blurs with the composite's own radius (1.6) rather than the slider's (2.0)
 * until updateUniformValues runs.
 */
module NodeGaussianBlurs {
  import opened Wrappers
  import opened GpuModel
  import opened Framebuffers
  import opened FramebufferPools
  import opened Sockets
  import opened SliderBuilders
  import opened DependencyResolvers
  import opened CompositeGaussianBlurs

  /** SLIDER_CONFIG. */
  const SliderConfigs: seq<SliderConfig> := [
    SliderConfig("radius", Settings(0.01, 60.0, 0.01, 2.0))
  ]

  /** A slider under every configured label. */
  predicate SlidersPresent(sliderMap: map<string, Slider>)
  {
    "radius" in sliderMap
  }

  /** Every configured label has its slider, carrying the entry's settings. */
  predicate SlidersConfigured(sliderMap: map<string, Slider>)
    reads sliderMap.Values
  {
    && SlidersPresent(sliderMap)
    && sliderMap["radius"].Current() == Settings(0.01, 60.0, 0.01, 2.0)
  }

  /** The sliders built from the configuration list are configured as it says. */
  lemma DefaultSliders(sliderMap: map<string, Slider>)
    requires Holds(sliderMap, SliderConfigs)
    ensures SlidersConfigured(sliderMap)
  {
    assert sliderMap[SliderConfigs[0].name].Current() == SliderConfigs[0].settings;
  }

  /** The labels are distinct and non-empty. */
  lemma ConfigsWellFormed()
    ensures DistinctNames(SliderConfigs)
    ensures forall i :: 0 <= i < |SliderConfigs| ==> SliderConfigs[i].name != ""
  {
  }

  class NodeGaussianBlur {
    const filter: CompositeShaderGaussianBlur
    const id: nat
    const inputSockets: seq<InputSocket>
    const outputSockets: seq<OutputSocket>
    var framebuffer: Option<Framebuffer>
    const dependencyResolver: DependencyResolver
    var sliderMap: map<string, Slider>

    /** The filter-node sockets: one image input and one image output, owned by the node. */
    predicate Shaped()
    {
      ImageFilterShape(id, inputSockets, outputSockets)
    }

    /** The sockets, and a slider under every configured label. */
    predicate Valid()
      reads this`sliderMap
    {
      Shaped() && SlidersPresent(sliderMap)
    }

    /** The composite's uniform values are the sliders' current values. */
    predicate UniformsFollowSliders()
      reads this`sliderMap, sliderMap.Values, filter
    {
      && SlidersPresent(sliderMap)
      && filter.radius == sliderMap["radius"].value
    }

    constructor (id: nat)
      ensures Valid() && this.id == id
      ensures fresh(inputSockets[0]) && inputSockets[0].source == None
      ensures fresh(outputSockets[0]) && outputSockets[0].data == None && outputSockets[0].connections == {}
      ensures framebuffer == None
      ensures fresh(dependencyResolver)
      ensures dependencyResolver.totalDependantCount == 0 && dependencyResolver.dependencyUsedCount == 0
      ensures fresh(filter) && SlidersConfigured(sliderMap)
      ensures filter.radius == 1.6 && sliderMap["radius"].value == 2.0
    {
      this.id := id;
      filter := new CompositeShaderGaussianBlur();
      dependencyResolver := new DependencyResolver();
      var ins, outs := ImageFilterSockets(id);
      inputSockets := ins;
      outputSockets := outs;
      framebuffer := None;
      sliderMap := map[];
      new;
      BuildSliders();
    }

    /** isNodeNeeded asks the resolver. */
    method IsNodeNeeded() returns (b: bool)
      modifies dependencyResolver`dependencyUsedCount
      ensures (b, dependencyResolver.dependencyUsedCount)
        == Resolve(dependencyResolver.totalDependantCount, old(dependencyResolver.dependencyUsedCount))
    {
      b := dependencyResolver.IsResolved();
    }

    /** buildSliders: one slider per configuration entry; the composite is left as it was. */
    method BuildSliders()
      modifies this`sliderMap
      ensures sliderMap.Keys == old(sliderMap.Keys) + Names(SliderConfigs)
      ensures SlidersConfigured(sliderMap)
      ensures forall i :: 0 <= i < |SliderConfigs| ==> fresh(sliderMap[SliderConfigs[i].name])
      ensures filter.radius == old(filter.radius)
    {
      ConfigsWellFormed();
      sliderMap := FillSliderMap(SliderConfigs, sliderMap);
      DefaultSliders(sliderMap);
    }

    /**
     * updateUniformValues: the first configured slider's value becomes the blur radius.
     */
    method UpdateUniformValues()
      requires SlidersPresent(sliderMap)
      modifies filter`radius
      ensures UniformsFollowSliders()
    {
      var radiusValue := sliderMap[SliderConfigs[0].name].value;
      filter.SetUniformValues(radiusValue);
    }

    /** The end of render: the target is kept, its attachments published, output 0 returned. */
    method KeepAndPublish(fbo: Framebuffer) returns (r: Option<Texture>)
      requires Shaped() && |outputSockets| <= |fbo.textures|
      modifies this`framebuffer, outputSockets`data
      ensures framebuffer == Some(fbo)
      ensures Values(outputSockets) == Published(fbo.textures, |outputSockets|)
      ensures r == Some(fbo.textures[0])
    {
      framebuffer := Some(fbo);
      Publish(outputSockets, fbo.textures);
      r := outputSockets[0].data;
    }

    /**
     * render: the node keeps the composite's target, overwriting (and not handing back) the
     * one a previous render left in use, and publishes its attachments.
     */
    method Render(pool: FramebufferPool, textureWidth: int, textureHeight: int, inputTextures: seq<Texture>)
      returns (r: Option<Texture>)
      requires Shaped() && pool.Valid() && !pool.gpu.contextLost
      modifies this`framebuffer, outputSockets`data
      modifies pool`pool, pool`inUse, pool.gpu`nextTexture, pool.gpu`nextFramebuffer, pool.gpu`trace, pool.gpu`draws
      ensures pool.Valid()
      ensures old(pool.gpu.nextTexture) <= pool.gpu.nextTexture
      ensures framebuffer.Some?
      ensures pool.HandsOut(framebuffer.value, old(pool.inUse), textureWidth, textureHeight, OutputTextureCount(GaussianBlurPass))
      ensures old(pool.gpu.draws) <= pool.gpu.draws
      ensures GaussianBlurDraws(pool.gpu.draws[|old(pool.gpu.draws)|..], filter.radius, inputTextures, framebuffer.value.textures)
      ensures old(pool.gpu.Allocated(inputTextures)) ==> AllAliasFree(pool.gpu.draws[|old(pool.gpu.draws)|..])
      ensures Values(outputSockets) == Published(framebuffer.value.textures, |outputSockets|)
      ensures r == Some(framebuffer.value.textures[0])
    {
      var fbo := filter.Render(pool, textureWidth, textureHeight, inputTextures);
      r := KeepAndPublish(fbo);
    }
  }
}
