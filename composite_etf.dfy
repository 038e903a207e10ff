/**
 * The edge-tangent-flow composite: a grayscale pass, a flow-field pass with a magnitude
 * and a direction attachment, then `etfIteration` rounds of a vertical and a horizontal
 * smoothing pass, each of which reads the flow magnitude beside the current flow.
 */
module CompositeEdgeTangentFlows {
  import opened Wrappers
  import opened GpuModel
  import opened Framebuffers
  import opened FramebufferPools
  import opened Passes

  /** The flow-field attachment that holds the gradient magnitude. */
  const Magnitude: nat := 0

  /** The uniform values of a smoothing pass: the blur axis and the kernel size. */
  function SmoothParams(axisX: real, axisY: real, kernelSize: real): seq<real>
  {
    [axisX, axisY, kernelSize]
  }

  /**
   * The input of the next vertical pass after the rounds `ds`: the flow-field attachments
   * before any round, the magnitude and the last horizontal output afterwards.
   */
  function NextInput(ds: seq<DrawRecord>, magnitude: Texture, input: seq<Texture>): seq<Texture>
  {
    if |ds| == 0 then input else [magnitude] + ds[|ds| - 1].target
  }

  /**
   * `ds` is a run of smoothing rounds starting from `input`: each round draws a vertical
   * pass from the current input into one attachment, then a horizontal pass from the
   * magnitude and that attachment into another one, which feeds the next round.
   */
  predicate SmoothRounds(ds: seq<DrawRecord>, magnitude: Texture, kernelSize: real, input: seq<Texture>)
    decreases |ds|
  {
    if |ds| == 0 then true
    else
      && |ds| >= 2
      && ds[0] == DrawRecord(ETFSmoothing, SmoothParams(0.0, 1.0, kernelSize), input, ds[0].target)
      && |ds[0].target| == 1
      && ds[1] == DrawRecord(ETFSmoothing, SmoothParams(1.0, 0.0, kernelSize), [magnitude] + ds[0].target, ds[1].target)
      && |ds[1].target| == 1
      && SmoothRounds(ds[2..], magnitude, kernelSize, [magnitude] + ds[1].target)
  }

  /** One more round, fed by the output of the last one, extends a run of rounds. */
  lemma {:induction false} SmoothRoundsExtend(ds: seq<DrawRecord>, magnitude: Texture, kernelSize: real,
                                              input: seq<Texture>, v: DrawRecord, h: DrawRecord)
    requires SmoothRounds(ds, magnitude, kernelSize, input)
    requires v == DrawRecord(ETFSmoothing, SmoothParams(0.0, 1.0, kernelSize), NextInput(ds, magnitude, input), v.target)
    requires |v.target| == 1
    requires h == DrawRecord(ETFSmoothing, SmoothParams(1.0, 0.0, kernelSize), [magnitude] + v.target, h.target)
    requires |h.target| == 1
    ensures SmoothRounds(ds + [v, h], magnitude, kernelSize, input)
    decreases |ds|
  {
    if |ds| == 0 {
      assert (ds + [v, h])[2..] == [];
    } else {
      assert (ds + [v, h])[2..] == ds[2..] + [v, h];
      assert NextInput(ds[2..], magnitude, [magnitude] + ds[1].target) == NextInput(ds, magnitude, input);
      SmoothRoundsExtend(ds[2..], magnitude, kernelSize, [magnitude] + ds[1].target, v, h);
    }
  }

  /**
   * Every pass of a run of rounds is a smoothing pass with one attachment; the first one
   * reads `input`, every later one reads the magnitude first and then the attachment of
   * the pass before it.
   */
  lemma {:induction false} SmoothRoundsChain(ds: seq<DrawRecord>, magnitude: Texture, kernelSize: real,
                                             input: seq<Texture>)
    requires SmoothRounds(ds, magnitude, kernelSize, input)
    ensures |ds| % 2 == 0
    ensures forall j :: 0 <= j < |ds| ==> ds[j].kernel == ETFSmoothing && |ds[j].target| == 1
    ensures |ds| > 0 ==> ds[0].inputs == input
    ensures forall j :: 0 < j < |ds| ==> ds[j].inputs == [magnitude] + ds[j - 1].target
    decreases |ds|
  {
    if |ds| > 0 {
      var rest := ds[2..];
      SmoothRoundsChain(rest, magnitude, kernelSize, [magnitude] + ds[1].target);
      forall j | 2 <= j < |ds|
        ensures ds[j].kernel == ETFSmoothing && |ds[j].target| == 1
        ensures ds[j].inputs == [magnitude] + ds[j - 1].target
      {
        assert ds[j] == rest[j - 2];
        if j > 2 {
          assert ds[j - 1] == rest[j - 3];
        }
      }
    }
  }

  /**
   * The draws of the composite up to and including its smoothing rounds: grayscale from
   * `inputs` into one attachment, the flow field from it into two, then smoothing rounds
   * that start from both flow-field attachments.
   */
  predicate FlowDraws(ds: seq<DrawRecord>, kernelSize: real, inputs: seq<Texture>)
  {
    && |ds| >= 2
    && ds[0] == DrawRecord(Grayscale, [], inputs, ds[0].target)
    && |ds[0].target| == OutputTextureCount(Grayscale)
    && ds[1] == DrawRecord(FlowField, [], ds[0].target, ds[1].target)
    && |ds[1].target| == OutputTextureCount(FlowField)
    && SmoothRounds(ds[2..], ds[1].target[Magnitude], kernelSize, ds[1].target)
  }

  /**
   * The draws of one composite with `iterations` rounds whose result is `out`: the last
   * horizontal output, or the flow field itself when there is no round.
   */
  predicate EdgeTangentFlowDraws(ds: seq<DrawRecord>, kernelSize: real, iterations: int, inputs: seq<Texture>,
                                 out: seq<Texture>)
  {
    && FlowDraws(ds, kernelSize, inputs)
    && |ds| == 2 + 2 * (if iterations < 0 then 0 else iterations)
    && out == ds[|ds| - 1].target
  }

  /**
   * What a composite run promises to the passes that consume it: the grayscale and
   * flow-field passes come first, every later pass is a smoothing pass that reads the
   * flow magnitude before its flow input, and the result has a single attachment
   * exactly when at least one round ran.
   */
  lemma EdgeTangentFlowShape(ds: seq<DrawRecord>, kernelSize: real, iterations: int, inputs: seq<Texture>,
                             out: seq<Texture>)
    requires EdgeTangentFlowDraws(ds, kernelSize, iterations, inputs, out)
    ensures Kernels(ds[..2]) == [Grayscale, FlowField]
    ensures forall j :: 2 <= j < |ds| ==>
      ds[j].kernel == ETFSmoothing && |ds[j].inputs| > 0 && ds[j].inputs[0] == ds[1].target[Magnitude]
    ensures |out| == (if iterations >= 1 then 1 else 2)
  {
    var rounds := ds[2..];
    SmoothRoundsChain(rounds, ds[1].target[Magnitude], kernelSize, ds[1].target);
    forall j | 2 <= j < |ds|
      ensures ds[j].kernel == ETFSmoothing && |ds[j].inputs| > 0 && ds[j].inputs[0] == ds[1].target[Magnitude]
    {
      assert ds[j] == rounds[j - 2];
      if j > 2 {
        assert ds[j - 1] == rounds[j - 3];
      }
    }
    assert Kernels(ds[..2]) == [ds[0].kernel, ds[1].kernel];
    if iterations >= 1 {
      assert out == rounds[|rounds| - 1].target;
    }
  }

  /** The next round's input, read off the composite's log so far. */
  lemma NextInputIs(log: seq<DrawRecord>, magnitude: Texture, flow: seq<Texture>, current: seq<Texture>)
    requires |log| >= 2 && current == log[|log| - 1].target
    ensures NextInput(log[2..], magnitude, flow) == if |log| == 2 then flow else [magnitude] + current
  {
    if |log| > 2 {
      assert log[2..][|log| - 3] == log[|log| - 1];
    }
  }

  /** The draw log after the grayscale and flow-field passes. */
  lemma HeadAssemble(d0: seq<DrawRecord>, d1: seq<DrawRecord>, d2: seq<DrawRecord>, kernelSize: real,
                     inputs: seq<Texture>, gray: seq<Texture>, flow: seq<Texture>)
    requires d1 == d0 + [DrawRecord(Grayscale, [], inputs, gray)] && |gray| == 1
    requires d2 == d1 + [DrawRecord(FlowField, [], gray, flow)] && |flow| == 2
    ensures d0 <= d2 && FlowDraws(d2[|d0|..], kernelSize, inputs) && |d2[|d0|..]| == 2
    ensures NextInput(d2[|d0|..][2..], flow[Magnitude], flow) == flow
  {
    assert d2[|d0|..] == [d1[|d0|], d2[|d1|]];
  }

  /** One more round appended to the draw log keeps it a prefix of the composite's draws. */
  lemma RoundAssemble(d0: seq<DrawRecord>, d1: seq<DrawRecord>, d2: seq<DrawRecord>, log1: seq<DrawRecord>,
                      log2: seq<DrawRecord>, kernelSize: real, inputs: seq<Texture>, input: seq<Texture>,
                      horizontal: seq<Texture>)
    requires d0 <= d1 && log1 == d1[|d0|..] && FlowDraws(log1, kernelSize, inputs)
    requires input == NextInput(log1[2..], log1[1].target[Magnitude], log1[1].target)
    requires RoundDraws(d1, d2, log1[1].target[Magnitude], kernelSize, input, horizontal)
    requires |horizontal| == 1 && log2 == d2[|d0|..]
    ensures d0 <= d2 && FlowDraws(log2, kernelSize, inputs) && |log2| == |log1| + 2
    ensures log2[1] == log1[1] && log2[|log2| - 1].target == horizontal
  {
    var v := d2[|d1|];
    var h := d2[|d1| + 1];
    assert log2 == log1 + [v, h];
    assert (log1 + [v, h])[2..] == log1[2..] + [v, h];
    SmoothRoundsExtend(log1[2..], log1[1].target[Magnitude], kernelSize, log1[1].target, v, h);
  }

  /**
   * The log `after` is `before` followed by one round from `input` whose horizontal pass
   * drew into `horizontal`.
   */
  predicate RoundDraws(before: seq<DrawRecord>, after: seq<DrawRecord>, magnitude: Texture, kernelSize: real,
                       input: seq<Texture>, horizontal: seq<Texture>)
  {
    && |after| == |before| + 2 && before <= after
    && after[|before|] == DrawRecord(ETFSmoothing, SmoothParams(0.0, 1.0, kernelSize), input, after[|before|].target)
    && |after[|before|].target| == 1
    && after[|before| + 1]
       == DrawRecord(ETFSmoothing, SmoothParams(1.0, 0.0, kernelSize), [magnitude] + after[|before|].target, horizontal)
  }

  /** How one round moves the in-use set: the vertical target in and out again, the horizontal one in. */
  lemma RoundInUse(u0: set<Framebuffer>, u1: set<Framebuffer>, u2: set<Framebuffer>, u3: set<Framebuffer>,
                   u4: set<Framebuffer>, released: set<Framebuffer>, vertical: Framebuffer, horizontal: Framebuffer)
    requires vertical !in u0 && u1 == u0 + {vertical} && u2 == u1 - released && vertical !in released
    requires horizontal !in u2 && u3 == u2 + {horizontal} && u4 == u3 - {vertical}
    ensures horizontal !in u0 - released && u4 == (u0 - released) + {horizontal}
  {
  }

  lemma StageInUse(u0: set<Framebuffer>, u1: set<Framebuffer>, u2: set<Framebuffer>, u3: set<Framebuffer>,
                   gray: Framebuffer, flow: Framebuffer)
    requires gray !in u0 && u1 == u0 + {gray} && flow !in u1 && u2 == u1 + {flow} && u3 == u2 - {gray}
    ensures flow !in u0 && u3 == u0 + {flow}
  {
  }

  class CompositeShaderEdgeTangentFlow {
    var etfKernelSize: real
    var etfIteration: int

    constructor ()
      ensures etfKernelSize == 3.0 && etfIteration == 2
    {
      etfKernelSize := 3.0;
      etfIteration := 2;
    }

    method SetUniformValues(etfKernelSize: real, etfIteration: int)
      modifies this`etfKernelSize, this`etfIteration
      ensures this.etfKernelSize == etfKernelSize && this.etfIteration == etfIteration
    {
      this.etfKernelSize := etfKernelSize;
      this.etfIteration := etfIteration;
    }

    /**
     * The grayscale pass and the flow-field pass from its attachment, after which the
     * grayscale target is handed back.
     */
    method FlowFieldStage(pool: FramebufferPool, width: int, height: int, inputTextures: seq<Texture>)
      returns (r: Framebuffer)
      requires pool.Valid() && !pool.gpu.contextLost
      modifies pool`pool, pool`inUse, pool.gpu`nextTexture, pool.gpu`nextFramebuffer, pool.gpu`trace, pool.gpu`draws
      ensures pool.Valid()
      ensures old(pool.gpu.nextTexture) <= pool.gpu.nextTexture
      ensures
        && pool.HandsOut(r, old(pool.inUse), width, height, OutputTextureCount(FlowField))
        && old(pool.gpu.draws) <= pool.gpu.draws
        && FlowDraws(pool.gpu.draws[|old(pool.gpu.draws)|..], etfKernelSize, inputTextures)
        && |pool.gpu.draws| == |old(pool.gpu.draws)| + 2
        && pool.gpu.draws[|old(pool.gpu.draws)| + 1].target == r.textures
        && (old(pool.gpu.Allocated(inputTextures)) ==> AllAliasFree(pool.gpu.draws[|old(pool.gpu.draws)|..]))
    {
      ghost var d0 := pool.gpu.draws;
      ghost var u0 := pool.inUse;
      // Grayscale the image
      var grayscaleFbo := WritePass(pool, Grayscale, [], inputTextures, width, height, OutputTextureCount(Grayscale));
      ghost var d1 := pool.gpu.draws;
      ghost var u1 := pool.inUse;
      var grayscaleTextures := grayscaleFbo.GetTextures();
      // Compute the flow field
      r := WritePass(pool, FlowField, [], grayscaleTextures, width, height, OutputTextureCount(FlowField));
      ghost var u2 := pool.inUse;
      pool.Release(grayscaleFbo);
      HeadAssemble(d0, d1, pool.gpu.draws, etfKernelSize, inputTextures, grayscaleTextures, r.textures);
      if old(pool.gpu.Allocated(inputTextures)) {
        AliasFreeStep(d0, d0, d1);
        AliasFreeStep(d0, d1, pool.gpu.draws);
      }
      StageInUse(u0, u1, u2, pool.inUse, grayscaleFbo, r);
    }

    /**
     * One iteration of the smoothing loop: the vertical pass from `input`, then (from the
     * second round on) the previous round's target handed back, the horizontal pass from
     * the magnitude and the vertical attachment, and the vertical target handed back.
     */
    method SmoothRound(pool: FramebufferPool, width: int, height: int, magnitude: Texture, input: seq<Texture>,
                       previous: Framebuffer, releasePrevious: bool) returns (r: Framebuffer)
      requires pool.Valid() && !pool.gpu.contextLost
      requires releasePrevious ==> previous in pool.inUse
      modifies pool`pool, pool`inUse, pool.gpu`nextTexture, pool.gpu`nextFramebuffer, pool.gpu`trace, pool.gpu`draws
      ensures pool.Valid()
      ensures old(pool.gpu.nextTexture) <= pool.gpu.nextTexture
      ensures var released := if releasePrevious then {previous} else {};
        && r in pool.pool && Fits(r, width, height, OutputTextureCount(ETFSmoothing))
        && r !in old(pool.inUse) - released && pool.inUse == (old(pool.inUse) - released) + {r}
      ensures RoundDraws(old(pool.gpu.draws), pool.gpu.draws, magnitude, etfKernelSize, input, r.textures)
      ensures old(pool.gpu.Allocated(input)) && old(pool.gpu.Allocated([magnitude])) ==>
        AliasFree(pool.gpu.draws[|old(pool.gpu.draws)|]) && AliasFree(pool.gpu.draws[|old(pool.gpu.draws)| + 1])
    {
      ghost var u0 := pool.inUse;
      var etfVerticalSmoothFbo := WritePass(pool, ETFSmoothing, SmoothParams(0.0, 1.0, etfKernelSize),
                                            input, width, height, OutputTextureCount(ETFSmoothing));
      ghost var u1 := pool.inUse;
      var etfVerticalTextures := etfVerticalSmoothFbo.GetTextures();
      if releasePrevious {
        pool.Release(previous);
      }
      ghost var u2 := pool.inUse;
      var etfHorizontalInputTextures := [magnitude] + etfVerticalTextures;
      r := WritePass(pool, ETFSmoothing, SmoothParams(1.0, 0.0, etfKernelSize),
                     etfHorizontalInputTextures, width, height, OutputTextureCount(ETFSmoothing));
      ghost var u3 := pool.inUse;
      pool.Release(etfVerticalSmoothFbo);
      RoundInUse(u0, u1, u2, u3, pool.inUse, if releasePrevious then {previous} else {}, etfVerticalSmoothFbo, r);
    }

    /** One turn of the smoothing loop, round i, with the loop's bookkeeping carried over. */
    method SmoothStep(pool: FramebufferPool, width: int, height: int, flowFieldFbo: Framebuffer,
                      flowFieldTextures: seq<Texture>, currentFbo: Framebuffer, input: seq<Texture>, i: nat,
                      ghost d0: seq<DrawRecord>, ghost inputTextures: seq<Texture>, ghost allocated0: bool,
                      ghost base: set<Framebuffer>, ghost log: seq<DrawRecord>)
      returns (next: Framebuffer, nextInput: seq<Texture>, ghost nextLog: seq<DrawRecord>)
      requires pool.Valid() && !pool.gpu.contextLost && i < etfIteration
      requires flowFieldFbo in pool.pool && flowFieldFbo in base && flowFieldTextures == flowFieldFbo.textures
      requires currentFbo in pool.pool
      requires i == 0 ==> currentFbo == flowFieldFbo
      requires i > 0 ==> currentFbo !in base && Fits(currentFbo, width, height, OutputTextureCount(ETFSmoothing))
      requires pool.inUse == base + (if i == 0 then {} else {currentFbo})
      requires d0 <= pool.gpu.draws && log == pool.gpu.draws[|d0|..]
      requires FlowDraws(log, etfKernelSize, inputTextures) && |log| == 2 + 2 * i
      requires log[1].target == flowFieldTextures && currentFbo.textures == log[|log| - 1].target
      requires input == if i == 0 then flowFieldTextures else [flowFieldTextures[Magnitude]] + currentFbo.textures
      requires allocated0 ==> AllAliasFree(log)
      modifies pool`pool, pool`inUse, pool.gpu`nextTexture, pool.gpu`nextFramebuffer, pool.gpu`trace, pool.gpu`draws
      ensures pool.Valid() && old(pool.gpu.nextTexture) <= pool.gpu.nextTexture
      ensures flowFieldFbo in pool.pool
      ensures next in pool.pool && next !in base && Fits(next, width, height, OutputTextureCount(ETFSmoothing))
      ensures pool.inUse == base + {next}
      ensures d0 <= pool.gpu.draws && nextLog == pool.gpu.draws[|d0|..]
      ensures FlowDraws(nextLog, etfKernelSize, inputTextures) && |nextLog| == 2 + 2 * (i + 1)
      ensures nextLog[1].target == flowFieldTextures && next.textures == nextLog[|nextLog| - 1].target
      ensures nextInput == [flowFieldTextures[Magnitude]] + next.textures
      ensures allocated0 ==> AllAliasFree(nextLog)
    {
      ghost var e0 := pool.gpu.draws;
      var magnitude := flowFieldTextures[Magnitude];
      pool.AttachmentsAllocated(flowFieldFbo);
      pool.AttachmentsAllocated(currentFbo);
      assert magnitude in flowFieldFbo.textures;
      assert pool.gpu.Allocated([magnitude]);
      if i > 0 {
        pool.gpu.AllocatedConcat([magnitude], currentFbo.textures);
      }
      assert pool.gpu.Allocated(input);
      NextInputIs(log, magnitude, flowFieldTextures, currentFbo.textures);
      next := SmoothRound(pool, width, height, magnitude, input, currentFbo, i > 0);
      var etfHorizontalSmoothTextures := next.GetTextures();
      nextLog := pool.gpu.draws[|d0|..];
      RoundAssemble(d0, e0, pool.gpu.draws, log, nextLog, etfKernelSize, inputTextures, input,
                    etfHorizontalSmoothTextures);
      if allocated0 {
        AliasFreeTwoSteps(d0, e0, pool.gpu.draws);
      }
      nextInput := [magnitude] + etfHorizontalSmoothTextures;
    }

    /**
     * The smoothing loop, run on the flow-field target `flowFieldFbo` that the composite
     * still holds; `d0` marks where the composite's draws begin in the log.
     */
    method SmoothLoop(pool: FramebufferPool, width: int, height: int, flowFieldFbo: Framebuffer,
                      ghost d0: seq<DrawRecord>, ghost inputTextures: seq<Texture>, ghost allocated0: bool)
      returns (currentFbo: Framebuffer)
      requires pool.Valid() && !pool.gpu.contextLost
      requires flowFieldFbo in pool.pool && flowFieldFbo in pool.inUse
      requires Fits(flowFieldFbo, width, height, OutputTextureCount(FlowField))
      requires d0 <= pool.gpu.draws && FlowDraws(pool.gpu.draws[|d0|..], etfKernelSize, inputTextures)
      requires |pool.gpu.draws[|d0|..]| == 2 && pool.gpu.draws[|d0|..][1].target == flowFieldFbo.textures
      requires allocated0 ==> AllAliasFree(pool.gpu.draws[|d0|..])
      modifies pool`pool, pool`inUse, pool.gpu`nextTexture, pool.gpu`nextFramebuffer, pool.gpu`trace, pool.gpu`draws
      ensures pool.Valid()
      ensures old(pool.gpu.nextTexture) <= pool.gpu.nextTexture
      ensures etfIteration >= 1 ==>
        && currentFbo in pool.pool && Fits(currentFbo, width, height, OutputTextureCount(ETFSmoothing))
        && currentFbo !in old(pool.inUse) && pool.inUse == old(pool.inUse) + {currentFbo}
      ensures etfIteration < 1 ==> currentFbo == flowFieldFbo && pool.inUse == old(pool.inUse)
      ensures d0 <= pool.gpu.draws
      ensures var log := pool.gpu.draws[|d0|..];
        && FlowDraws(log, etfKernelSize, inputTextures)
        && |log| == 2 + 2 * (if etfIteration < 0 then 0 else etfIteration)
        && currentFbo.textures == log[|log| - 1].target
        && (allocated0 ==> AllAliasFree(log))
    {
      var flowFieldTextures := flowFieldFbo.GetTextures();
      ghost var base := pool.inUse;
      var etfSmoothPassInputTextures := flowFieldTextures;
      currentFbo := flowFieldFbo;
      ghost var log := pool.gpu.draws[|d0|..];
      var i := 0;
      while i < etfIteration
        invariant 0 <= i && (i <= etfIteration || i == 0)
        invariant pool.Valid() && old(pool.gpu.nextTexture) <= pool.gpu.nextTexture
        invariant flowFieldFbo in pool.pool && flowFieldFbo in base
        invariant currentFbo in pool.pool
        invariant i == 0 ==> currentFbo == flowFieldFbo
        invariant i > 0 ==> currentFbo !in base && Fits(currentFbo, width, height, OutputTextureCount(ETFSmoothing))
        invariant pool.inUse == base + (if i == 0 then {} else {currentFbo})
        invariant d0 <= pool.gpu.draws && log == pool.gpu.draws[|d0|..]
        invariant FlowDraws(log, etfKernelSize, inputTextures) && |log| == 2 + 2 * i
        invariant log[1].target == flowFieldTextures && currentFbo.textures == log[|log| - 1].target
        invariant etfSmoothPassInputTextures
                  == if i == 0 then flowFieldTextures else [flowFieldTextures[Magnitude]] + currentFbo.textures
        invariant allocated0 ==> AllAliasFree(log)
      {
        currentFbo, etfSmoothPassInputTextures, log :=
          SmoothStep(pool, width, height, flowFieldFbo, flowFieldTextures, currentFbo, etfSmoothPassInputTextures, i,
                     d0, inputTextures, allocated0, base, log);
        i := i + 1;
      }
    }

    /**
     * Runs the composite. With at least one round the result is the last horizontal
     * target, the only one left in use; with none the result is the flow-field target,
     * which has already been handed back to the pool.
     */
    method Render(pool: FramebufferPool, width: int, height: int, inputTextures: seq<Texture>)
      returns (r: Framebuffer)
      requires pool.Valid() && !pool.gpu.contextLost
      modifies pool`pool, pool`inUse, pool.gpu`nextTexture, pool.gpu`nextFramebuffer, pool.gpu`trace, pool.gpu`draws
      ensures pool.Valid()
      ensures old(pool.gpu.nextTexture) <= pool.gpu.nextTexture
      ensures etfIteration >= 1 ==> pool.HandsOut(r, old(pool.inUse), width, height, OutputTextureCount(ETFSmoothing))
      ensures etfIteration < 1 ==>
        && r in pool.pool && Fits(r, width, height, OutputTextureCount(FlowField))
        && r !in old(pool.inUse) && pool.inUse == old(pool.inUse)
      ensures
        && old(pool.gpu.draws) <= pool.gpu.draws
        && EdgeTangentFlowDraws(pool.gpu.draws[|old(pool.gpu.draws)|..], etfKernelSize, etfIteration, inputTextures, r.textures)
        && (old(pool.gpu.Allocated(inputTextures)) ==> AllAliasFree(pool.gpu.draws[|old(pool.gpu.draws)|..]))
    {
      ghost var d0 := pool.gpu.draws;
      ghost var u0 := pool.inUse;
      var flowFieldFbo := FlowFieldStage(pool, width, height, inputTextures);
      ghost var u1 := pool.inUse;
      var currentFbo := SmoothLoop(pool, width, height, flowFieldFbo, d0, inputTextures, old(pool.gpu.Allocated(inputTextures)));
      ghost var u2 := pool.inUse;
      pool.Release(flowFieldFbo);
      return currentFbo;
    }
  }
}
