/**
 * Sliders and their fluent builder. A slider carries a name and four numbers; the builder
 * collects them with chained setters and copies them onto a new slider in `build`, whose
 * slider constructor rejects an empty name.
 */
module SliderBuilders {
  import opened Wrappers

  /** The four numbers of a slider, or of a builder about to build one. */
  datatype Settings = Settings(min: real, max: real, step: real, value: real)

  class Slider {
    const name: string
    var min: real
    var max: real
    var step: real
    var value: real

    /** The constructor past its name check: min 0, max 100, step 1, value 0. */
    constructor (name: string)
      requires name != ""
      ensures this.name == name && min == 0.0 && max == 100.0 && step == 1.0 && value == 0.0
    {
      this.name := name;
      min := 0.0;
      max := 100.0;
      step := 1.0;
      value := 0.0;
    }

    function Current(): (s: Settings)
      reads this
    {
      Settings(min, max, step, value)
    }
  }

  /** `new Slider(name)`: throws "Slider name is required" on an empty name. */
  method NewSlider(name: string) returns (r: Result<Slider>)
    ensures r.Failure? <==> name == ""
    ensures r.Failure? ==> r.error == SliderNameRequired
    ensures r.Success? ==> fresh(r.value)
    ensures r.Success? ==> r.value.name == name && r.value.Current() == Settings(0.0, 100.0, 1.0, 0.0)
  {
    if name == "" {
      return Failure(SliderNameRequired);
    }
    var slider := new Slider(name);
    return Success(slider);
  }

  class SliderBuilder {
    var min: real
    var max: real
    var step: real
    var value: real
    var name: string

    /** A new builder: min 0, max 1, step 0.1, value 0.5. */
    constructor (name: string)
      ensures this.name == name && Current() == Settings(0.0, 1.0, 0.1, 0.5)
    {
      min := 0.0;
      max := 1.0;
      step := 0.1;
      value := 0.5;
      this.name := name;
    }

    function Current(): (s: Settings)
      reads this
    {
      Settings(min, max, step, value)
    }

    /** Each setter stores its argument, leaves the other settings alone, and returns the builder. */
    method Min(value: real) returns (b: SliderBuilder)
      modifies this`min
      ensures b == this && Current() == old(Current()).(min := value)
    {
      this.min := value;
      return this;
    }

    method Max(value: real) returns (b: SliderBuilder)
      modifies this`max
      ensures b == this && Current() == old(Current()).(max := value)
    {
      this.max := value;
      return this;
    }

    method Step(value: real) returns (b: SliderBuilder)
      modifies this`step
      ensures b == this && Current() == old(Current()).(step := value)
    {
      this.step := value;
      return this;
    }

    method Value(val: real) returns (b: SliderBuilder)
      modifies this`value
      ensures b == this && Current() == old(Current()).(value := val)
    {
      this.value := val;
      return this;
    }

    /** build: a new slider with the builder's name and settings; it fails as the constructor does. */
    method Build() returns (r: Result<Slider>)
      ensures r.Failure? <==> name == ""
      ensures r.Failure? ==> r.error == SliderNameRequired
      ensures r.Success? ==> fresh(r.value) && r.value.name == name && r.value.Current() == Current()
    {
      var slider :- NewSlider(name);
      slider.max := max;
      slider.min := min;
      slider.value := value;
      slider.step := step;
      return Success(slider);
    }
  }

  /** One slider configuration entry: its label (the slider name) and its settings. */
  datatype SliderConfig = SliderConfig(name: string, settings: Settings)

  /**
   * `new SliderBuilder(label).min(..).max(..).step(..).value(..).build()`, the chain every
   * node's buildSliders runs for each configuration entry.
   */
  method BuildSlider(config: SliderConfig) returns (r: Result<Slider>)
    ensures r.Failure? <==> config.name == ""
    ensures r.Success? ==> fresh(r.value)
    ensures r.Success? ==> r.value.name == config.name && r.value.Current() == config.settings
  {
    var builder := new SliderBuilder(config.name);
    builder := builder.Min(config.settings.min);
    builder := builder.Max(config.settings.max);
    builder := builder.Step(config.settings.step);
    builder := builder.Value(config.settings.value);
    r := builder.Build();
  }

  /** The labels of a slider configuration list. */
  function Names(configs: seq<SliderConfig>): set<string>
  {
    set c | c in configs :: c.name
  }

  /** No two entries of the list share a label. */
  predicate DistinctNames(configs: seq<SliderConfig>)
  {
    forall i, j :: 0 <= i < j < |configs| ==> configs[i].name != configs[j].name
  }

  /** Every entry's slider is in the map under its label, with the entry's settings. */
  predicate Holds(sliderMap: map<string, Slider>, configs: seq<SliderConfig>)
    reads sliderMap.Values
  {
    forall i :: 0 <= i < |configs| ==>
      && configs[i].name in sliderMap
      && sliderMap[configs[i].name].name == configs[i].name
      && sliderMap[configs[i].name].Current() == configs[i].settings
  }

  /** Storing entry i's slider under its label extends what the map holds by that entry. */
  lemma HoldsPut(sliderMap: map<string, Slider>, configs: seq<SliderConfig>, i: nat, slider: Slider)
    requires i < |configs| && DistinctNames(configs) && Holds(sliderMap, configs[..i])
    requires slider.name == configs[i].name && slider.Current() == configs[i].settings
    ensures Holds(sliderMap[configs[i].name := slider], configs[..i + 1])
  {
    var next := sliderMap[configs[i].name := slider];
    var front := configs[..i + 1];
    forall j | 0 <= j < |front|
      ensures front[j].name in next
      ensures next[front[j].name].name == front[j].name
      ensures next[front[j].name].Current() == front[j].settings
    {
      if j < i {
        assert configs[..i][j] == configs[j];
        assert configs[j].name != configs[i].name;
      }
    }
  }

  /**
   * The loop of every node's buildSliders: one built slider per configuration entry,
   * stored under its label. Every label of the configuration lists is non-empty, so no
   * build throws.
   */
  method FillSliderMap(configs: seq<SliderConfig>, sliderMap: map<string, Slider>) returns (r: map<string, Slider>)
    requires DistinctNames(configs)
    requires forall i :: 0 <= i < |configs| ==> configs[i].name != ""
    ensures r.Keys == sliderMap.Keys + Names(configs)
    ensures Holds(r, configs)
    ensures forall i :: 0 <= i < |configs| ==> fresh(r[configs[i].name])
    ensures forall k :: k in sliderMap && k !in Names(configs) ==> r[k] == sliderMap[k]
  {
    r := sliderMap;
    var i := 0;
    while i < |configs|
      invariant 0 <= i <= |configs|
      invariant r.Keys == sliderMap.Keys + Names(configs[..i])
      invariant Holds(r, configs[..i])
      invariant forall j :: 0 <= j < i ==> fresh(r[configs[j].name])
      invariant forall k :: k in sliderMap && k !in Names(configs[..i]) ==> r[k] == sliderMap[k]
    {
      var config := configs[i];
      var slider := BuildSlider(config);
      assert configs[..i + 1] == configs[..i] + [config];
      HoldsPut(r, configs, i, slider.value);
      r := r[config.name := slider.value];
      i := i + 1;
    }
    assert configs[..i] == configs;
  }
}
