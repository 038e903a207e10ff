/** A framebuffer object with `textureCount` colour attachments of one size. */
module Framebuffers {
  import opened Wrappers
  import opened GpuModel

  /** The ids start, start + 1, ..., start + n - 1. */
  function Consecutive(start: nat, n: nat): (ts: seq<Texture>)
    ensures |ts| == n
    ensures forall i :: 0 <= i < n ==> ts[i] == start + i
  {
    if n == 0 then [] else Consecutive(start, n - 1) + [start + n - 1]
  }

  /** Consecutive ids are pairwise distinct and none of them is below `start`. */
  lemma ConsecutiveFresh(start: nat, n: nat)
    ensures forall i, j :: 0 <= i < j < n ==> Consecutive(start, n)[i] != Consecutive(start, n)[j]
    ensures forall t :: t in Consecutive(start, n) ==> start <= t < start + n
  {
  }

  /** Creating and attaching textures start .. start+n-1 as COLOR_ATTACHMENT0 .. n-1. */
  function AttachCalls(start: nat, n: nat, width: int, height: int): (cs: seq<GlCall>)
    ensures |cs| == 2 * n
  {
    if n == 0 then []
    else AttachCalls(start, n - 1, width, height)
         + [CreateTexture(start + n - 1, width, height), FramebufferTexture2D(n - 1, start + n - 1)]
  }

  /** The i-th texture is created and then attached at COLOR_ATTACHMENT0 + i, in order. */
  lemma {:induction false} AttachCallsAt(start: nat, n: nat, width: int, height: int, i: nat)
    requires i < n
    ensures AttachCalls(start, n, width, height)[2 * i] == CreateTexture(start + i, width, height)
    ensures AttachCalls(start, n, width, height)[2 * i + 1] == FramebufferTexture2D(i, start + i)
  {
    if i < n - 1 {
      AttachCallsAt(start, n - 1, width, height, i);
    }
  }

  /** The calls the constructor makes after obtaining `handle`, up to the status check. */
  function SetupCalls(handle: FramebufferHandle, start: nat, n: nat, width: int, height: int): seq<GlCall>
  {
    [BindFramebuffer(Some(handle)), Viewport(width, height)]
    + AttachCalls(start, n, width, height)
    + [DrawBuffers(n)]
  }

  function DeleteTextureCalls(ts: seq<Texture>): (cs: seq<GlCall>)
    ensures |cs| == |ts|
    ensures forall i :: 0 <= i < |ts| ==> cs[i] == DeleteTexture(ts[i])
  {
    if ts == [] then [] else DeleteTextureCalls(ts[..|ts| - 1]) + [DeleteTexture(ts[|ts| - 1])]
  }

  /** What `delete` issues for a framebuffer whose handle and attachments are as given. */
  function DeleteCalls(handle: Option<FramebufferHandle>, ts: seq<Texture>): seq<GlCall>
  {
    (if handle.Some? then [DeleteFramebuffer(handle.value)] else []) + DeleteTextureCalls(ts)
  }

  class Framebuffer {
    const gpu: Gpu
    const width: int
    const height: int
    var handle: Option<FramebufferHandle>
    var textures: seq<Texture>

    /**
     * The part of the constructor after createFramebuffer has succeeded: bind, create and
     * attach the textures, declare the draw buffers.
     */
    constructor Attach(gpu: Gpu, width: int, height: int, handle: FramebufferHandle, textureCount: int)
      modifies gpu`nextTexture, gpu`trace
      ensures this.gpu == gpu && this.width == width && this.height == height
      ensures this.handle == Some(handle)
      ensures var n := if textureCount < 0 then 0 else textureCount;
        && textures == Consecutive(old(gpu.nextTexture), n)
        && gpu.nextTexture == old(gpu.nextTexture) + n
        && gpu.trace == old(gpu.trace) + SetupCalls(handle, old(gpu.nextTexture), n, width, height)
    {
      this.gpu := gpu;
      this.width := width;
      this.height := height;
      this.handle := Some(handle);
      this.textures := [];
      new;
      ghost var start := gpu.nextTexture;
      ghost var before := gpu.trace;
      Bind();
      var i := 0;
      while i < textureCount
        invariant 0 <= i <= (if textureCount < 0 then 0 else textureCount)
        invariant this.handle == Some(handle)
        invariant textures == Consecutive(start, i)
        invariant gpu.nextTexture == start + i
        invariant gpu.trace == before + [BindFramebuffer(Some(handle)), Viewport(width, height)]
                               + AttachCalls(start, i, width, height)
      {
        var tex := gpu.NewTexture(width, height);
        textures := textures + [tex];
        gpu.Call(FramebufferTexture2D(i, tex));
        i := i + 1;
      }
      gpu.Call(DrawBuffers(|textures|));
    }

    /**
     * new Framebuffer(gl, width, height, textureCount): throws when the context cannot
     * create a framebuffer, and when the status check fails, which for this engine means
     * there is no colour attachment at all.
     */
    static method Create(gpu: Gpu, width: int, height: int, textureCount: int) returns (r: Result<Framebuffer>)
      modifies gpu`nextTexture, gpu`nextFramebuffer, gpu`trace
      ensures gpu.contextLost ==> r == Failure(FramebufferCreationFailed) && unchanged(gpu)
      ensures !gpu.contextLost && textureCount < 1 ==> r == Failure(FramebufferIncomplete)
      ensures !gpu.contextLost && textureCount >= 1 ==>
        && r.Success? && fresh(r.value)
        && r.value.gpu == gpu && r.value.width == width && r.value.height == height
        && r.value.handle == Some(old(gpu.nextFramebuffer))
        && r.value.textures == Consecutive(old(gpu.nextTexture), textureCount)
        && gpu.trace == old(gpu.trace)
             + SetupCalls(old(gpu.nextFramebuffer), old(gpu.nextTexture), textureCount, width, height)
             + [BindFramebuffer(None)]
      ensures gpu.nextTexture == old(gpu.nextTexture) + (if gpu.contextLost || textureCount < 0 then 0 else textureCount)
    {
      var handle := gpu.CreateFramebuffer();
      if handle.None? {
        return Failure(FramebufferCreationFailed);
      }
      var fb := new Framebuffer.Attach(gpu, width, height, handle.value, textureCount);
      if |fb.textures| == 0 {
        return Failure(FramebufferIncomplete);
      }
      fb.Unbind();
      return Success(fb);
    }

    method Bind()
      modifies gpu`trace
      ensures gpu.trace == old(gpu.trace) + [BindFramebuffer(handle), Viewport(width, height)]
    {
      gpu.Call(BindFramebuffer(handle));
      gpu.Call(Viewport(width, height));
    }

    method Unbind()
      modifies gpu`trace
      ensures gpu.trace == old(gpu.trace) + [BindFramebuffer(None)]
    {
      gpu.Call(BindFramebuffer(None));
    }

    function GetTextures(): (ts: seq<Texture>)
      reads this
    {
      textures
    }

    /** The attachment count is the length of the attachment list. */
    function GetTextureCount(): (n: nat)
      reads this
      ensures n == |GetTextures()|
    {
      |textures|
    }

    /** Deletes the framebuffer object (once) and every attachment, leaving an empty record. */
    method Delete()
      modifies this`handle, this`textures, gpu`trace
      ensures handle.None? && textures == []
      ensures gpu.trace == old(gpu.trace) + DeleteCalls(old(handle), old(textures))
      ensures old(handle).None? && old(textures) == [] ==> gpu.trace == old(gpu.trace)
    {
      if handle.Some? {
        gpu.Call(DeleteFramebuffer(handle.value));
        handle := None;
      }
      ghost var mid := gpu.trace;
      var i := 0;
      while i < |textures|
        invariant 0 <= i <= |textures|
        invariant handle.None? && textures == old(textures)
        invariant gpu.trace == mid + DeleteTextureCalls(textures[..i])
      {
        gpu.Call(DeleteTexture(textures[i]));
        assert textures[..i + 1][..i] == textures[..i];
        i := i + 1;
      }
      assert textures[..i] == textures;
      textures := [];
    }
  }

  /**
   * `delete` is silent exactly on a record with no framebuffer object and no attachments,
   * which is what a first `delete` leaves behind.
   */
  lemma DeleteSilentIff(handle: Option<FramebufferHandle>, ts: seq<Texture>)
    ensures DeleteCalls(handle, ts) == [] <==> handle.None? && ts == []
  {
  }
}
