/**
 * The slice of WebGL2 the render engine touches. Textures and framebuffer objects are
 * fresh integer ids handed out by counters; every GL call is appended to `trace`, and
 * every draw is also logged as a DrawRecord so that pass choreographies can be
 * specified by the draws they issue.
 */
module GpuModel {
  import opened Wrappers

  type Texture = nat
  type FramebufferHandle = nat

  /** The single-pass kernels (non-composite shaders); their GLSL is opaque here. */
  datatype Kernel =
    | Invert | LuminanceQuantization | GaussianBlurPass | StructuredTensor | Eigenvector
    | Grayscale | FlowField | ETFSmoothing | Lab | EdgeBlur | XDoGSubtract | StreamlineBlur
    | XDoGThreshold | StreamlineBilateral | GradientBilateral | SubtractFDoG | TanhThreshold
    | SuperImpose | AnisotropicKuwaharaPass

  /** The number of colour attachments a kernel renders into (its `outputTextureCount`). */
  function OutputTextureCount(k: Kernel): (n: nat)
    ensures 1 <= n <= 2
    ensures n == 2 <==> k == Eigenvector || k == FlowField
  {
    match k
    case Eigenvector => 2   // anisotropy, xy flow map
    case FlowField => 2     // magnitude, xy direction
    case _ => 1
  }

  /** Index of the flow-field MAGNITUDE attachment and of the eigenvector XY flow map. */
  const FlowFieldMagnitude: nat := 0
  const EigenvectorXYFlowMap: nat := 1

  /** One WebGL call, with the arguments the engine passes. */
  datatype GlCall =
    | BindFramebuffer(target: Option<FramebufferHandle>)   // null binds the canvas
    | Viewport(width: int, height: int)
    | CreateTexture(texture: Texture, width: int, height: int)
    | FramebufferTexture2D(attachment: nat, texture: Texture) // COLOR_ATTACHMENT0 + attachment
    | DrawBuffers(count: nat)
    | ClearCanvas
    | UseProgram(program: Option<Kernel>)
    | BindVertexArray(bound: bool)
    | ActiveTexture(unit: nat)                               // TEXTURE0 + unit
    | BindTexture(texture: Texture)
    | SetGlobalUniforms(width: int, height: int)
    | SetFragmentUniforms(kernel: Kernel, params: seq<real>)
    | ConsoleError
    | DrawTriangles(first: nat, count: nat)
    | DeleteFramebuffer(handle: FramebufferHandle)
    | DeleteTexture(texture: Texture)
    | CopyTexture(source: Texture, copy: Texture)

  /** A draw: which kernel ran with which uniform values, reading `inputs`, writing `target`. */
  datatype DrawRecord = DrawRecord(kernel: Kernel, params: seq<real>, inputs: seq<Texture>, target: seq<Texture>)

  /** A draw never samples a texture it is rendering into. */
  predicate AliasFree(d: DrawRecord)
  {
    forall t :: t in d.target ==> t !in d.inputs
  }

  predicate AllAliasFree(ds: seq<DrawRecord>)
  {
    forall i :: 0 <= i < |ds| ==> AliasFree(ds[i])
  }

  /** The kernels of a run of draws, in order. */
  function Kernels(ds: seq<DrawRecord>): (ks: seq<Kernel>)
    ensures |ks| == |ds|
    ensures forall i :: 0 <= i < |ds| ==> ks[i] == ds[i].kernel
  {
    if ds == [] then [] else Kernels(ds[..|ds| - 1]) + [ds[|ds| - 1].kernel]
  }

  class Gpu {
    const contextLost: bool
    var nextTexture: nat
    var nextFramebuffer: nat
    var trace: seq<GlCall>
    var draws: seq<DrawRecord>

    constructor (contextLost: bool)
      ensures this.contextLost == contextLost
      ensures nextTexture == 0 && nextFramebuffer == 0 && trace == [] && draws == []
    {
      this.contextLost := contextLost;
      nextTexture := 0;
      nextFramebuffer := 0;
      trace := [];
      draws := [];
    }

    /** Every id in `ts` names a texture this context has created. */
    predicate Allocated(ts: seq<Texture>)
      reads this`nextTexture
    {
      forall t :: t in ts ==> t < nextTexture
    }

    /** gl.createFramebuffer: null once the context is lost, a fresh handle otherwise. */
    method CreateFramebuffer() returns (h: Option<FramebufferHandle>)
      modifies this`nextFramebuffer
      ensures contextLost ==> h.None? && nextFramebuffer == old(nextFramebuffer)
      ensures !contextLost ==> h == Some(old(nextFramebuffer)) && nextFramebuffer == old(nextFramebuffer) + 1
    {
      if contextLost {
        h := None;
      } else {
        h := Some(nextFramebuffer);
        nextFramebuffer := nextFramebuffer + 1;
      }
    }

    /** Texture.createFramebufferTexture: a fresh, uploaded, empty texture of the given size. */
    method NewTexture(width: int, height: int) returns (t: Texture)
      modifies this`nextTexture, this`trace
      ensures t == old(nextTexture) && nextTexture == t + 1
      ensures trace == old(trace) + [CreateTexture(t, width, height)]
    {
      t := nextTexture;
      nextTexture := nextTexture + 1;
      trace := trace + [CreateTexture(t, width, height)];
    }

    /** A list of textures of this context stays one when another such list is put in front. */
    lemma AllocatedConcat(a: seq<Texture>, b: seq<Texture>)
      requires Allocated(a) && Allocated(b)
      ensures Allocated(a + b)
    {
    }

    /** Two textures of this context, each from a list of them, form a list of them. */
    lemma AllocatedPair(a: seq<Texture>, i: nat, b: seq<Texture>, j: nat)
      requires Allocated(a) && Allocated(b) && i < |a| && j < |b|
      ensures Allocated([a[i], b[j]])
    {
      assert a[i] in a && b[j] in b;
    }

    method Call(c: GlCall)
      modifies this`trace
      ensures trace == old(trace) + [c]
    {
      trace := trace + [c];
    }

    method Draw(d: DrawRecord)
      modifies this`trace, this`draws
      ensures trace == old(trace) + [DrawTriangles(0, 6)]
      ensures draws == old(draws) + [d]
    {
      trace := trace + [DrawTriangles(0, 6)];
      draws := draws + [d];
    }
  }

  /** What a log gained since d0 is what it gained up to d1 followed by what it gained since. */
  lemma LogJoin(d0: seq<DrawRecord>, d1: seq<DrawRecord>, d2: seq<DrawRecord>)
    requires d0 <= d1 <= d2
    ensures d0 <= d2 && d2[|d0|..] == d1[|d0|..] + d2[|d1|..]
  {
  }

  /** A log that grew by one draw and then some more: that draw, then the rest. */
  lemma LogAfterOne(d0: seq<DrawRecord>, d1: seq<DrawRecord>, d2: seq<DrawRecord>)
    requires d0 <= d1 <= d2 && |d1| == |d0| + 1
    ensures d0 <= d2 && |d2| >= |d0| + 1 && d2[|d0|] == d1[|d0|]
    ensures d2[|d0| + 1..] == d2[|d1|..] && d2[|d0|..] == [d1[|d0|]] + d2[|d1|..]
  {
  }

  /** Two alias-free runs of draws, one after the other, make an alias-free run. */
  lemma AliasFreeJoin(d0: seq<DrawRecord>, d1: seq<DrawRecord>, d2: seq<DrawRecord>)
    requires d0 <= d1 <= d2 && AllAliasFree(d1[|d0|..]) && AllAliasFree(d2[|d1|..])
    ensures AllAliasFree(d2[|d0|..])
  {
    forall i | 0 <= i < |d2| - |d0|
      ensures AliasFree(d2[|d0|..][i])
    {
      if i < |d1| - |d0| {
        assert d2[|d0|..][i] == d1[|d0|..][i];
      } else {
        assert d2[|d0|..][i] == d2[|d1|..][i - (|d1| - |d0|)];
      }
    }
  }

  /** AliasFree over a log that grew by one alias-free draw. */
  lemma AliasFreeStep(d0: seq<DrawRecord>, d1: seq<DrawRecord>, d2: seq<DrawRecord>)
    requires d0 <= d1 && AllAliasFree(d1[|d0|..])
    requires d1 <= d2 && |d2| == |d1| + 1 && AliasFree(d2[|d1|])
    ensures d0 <= d2 && AllAliasFree(d2[|d0|..])
  {
    assert d2[|d0|..] == d1[|d0|..] + [d2[|d1|]];
  }

  /** A log that grew by two alias-free draws. */
  lemma AliasFreeTwoSteps(d0: seq<DrawRecord>, d1: seq<DrawRecord>, d2: seq<DrawRecord>)
    requires d0 <= d1 && AllAliasFree(d1[|d0|..])
    requires d1 <= d2 && |d2| == |d1| + 2 && AliasFree(d2[|d1|]) && AliasFree(d2[|d1| + 1])
    ensures d0 <= d2 && AllAliasFree(d2[|d0|..])
  {
    assert d2[|d0|..] == d1[|d0|..] + [d2[|d1|], d2[|d1| + 1]];
  }
}
