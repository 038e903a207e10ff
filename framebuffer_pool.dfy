/**
 * The render-target pool: every framebuffer ever allocated stays in `pool`; the ones
 * currently handed out are in `inUse`. Acquisitions reuse the first free entry of the
 * requested shape, in pool order, and allocate only when there is none.
 */
module FramebufferPools {
  import opened Wrappers
  import opened GpuModel
  import opened Framebuffers

  predicate Fits(f: Framebuffer, width: int, height: int, count: int)
    reads f
  {
    f.width == width && f.height == height && |f.textures| == count
  }

  /** None of f's attachments is one of `inputs`. */
  predicate SharesNone(f: Framebuffer, inputs: seq<Texture>)
    reads f
  {
    forall t :: t in f.textures ==> t !in inputs
  }

  /**
   * Whether an acquisition may hand out f: not in use, of the requested shape, and, for
   * getWrite (`exclude` holds its inputs), sharing no attachment with the inputs.
   */
  predicate Eligible(f: Framebuffer, used: set<Framebuffer>, width: int, height: int, count: int,
                     exclude: Option<seq<Texture>>)
    reads f
  {
    f !in used && Fits(f, width, height, count) && (exclude.Some? ==> SharesNone(f, exclude.value))
  }

  /** The position of the first eligible entry of s, or |s| when there is none. */
  function FirstEligible(s: seq<Framebuffer>, used: set<Framebuffer>, width: int, height: int, count: int,
                         exclude: Option<seq<Texture>>): (k: nat)
    reads s
    ensures k <= |s|
    decreases |s|
  {
    if s == [] then 0
    else if Eligible(s[0], used, width, height, count, exclude) then 0
    else 1 + FirstEligible(s[1..], used, width, height, count, exclude)
  }

  /** No entry before the first eligible one is eligible, and the entry there is. */
  lemma {:induction false} FirstEligibleIsFirst(s: seq<Framebuffer>, used: set<Framebuffer>, width: int, height: int,
                                                count: int, exclude: Option<seq<Texture>>)
    ensures var k := FirstEligible(s, used, width, height, count, exclude);
      && (k < |s| ==> Eligible(s[k], used, width, height, count, exclude))
      && (forall j :: 0 <= j < k ==> !Eligible(s[j], used, width, height, count, exclude))
    decreases |s|
  {
    if s != [] && !Eligible(s[0], used, width, height, count, exclude) {
      FirstEligibleIsFirst(s[1..], used, width, height, count, exclude);
      var k := FirstEligible(s, used, width, height, count, exclude);
      forall j | 0 <= j < k
        ensures !Eligible(s[j], used, width, height, count, exclude)
      {
        if j > 0 {
          assert s[j] == s[1..][j - 1];
        }
      }
    }
  }

  /** A scan that found no eligible entry before i, and one at i (or reached the end), found the first. */
  lemma {:induction false} FirstEligibleAt(s: seq<Framebuffer>, used: set<Framebuffer>, width: int, height: int,
                                           count: int, exclude: Option<seq<Texture>>, i: nat)
    requires i <= |s|
    requires forall j :: 0 <= j < i ==> !Eligible(s[j], used, width, height, count, exclude)
    requires i < |s| ==> Eligible(s[i], used, width, height, count, exclude)
    ensures FirstEligible(s, used, width, height, count, exclude) == i
    decreases i
  {
    if i > 0 {
      assert !Eligible(s[0], used, width, height, count, exclude);
      forall j | 0 <= j < i - 1
        ensures !Eligible(s[1..][j], used, width, height, count, exclude)
      {
        assert s[1..][j] == s[j + 1];
      }
      FirstEligibleAt(s[1..], used, width, height, count, exclude, i - 1);
    }
  }

  /** The handle and attachment list of each framebuffer of s, in order. */
  function Records(s: seq<Framebuffer>): (rs: seq<(Option<FramebufferHandle>, seq<Texture>)>)
    reads s
    ensures |rs| == |s|
    ensures forall j :: 0 <= j < |s| ==> rs[j] == (s[j].handle, s[j].textures)
  {
    if s == [] then [] else Records(s[..|s| - 1]) + [(s[|s| - 1].handle, s[|s| - 1].textures)]
  }

  /** Everything `clear` issues for framebuffers with these records, in pool order. */
  function ClearCalls(rs: seq<(Option<FramebufferHandle>, seq<Texture>)>): seq<GlCall>
  {
    if rs == [] then []
    else ClearCalls(rs[..|rs| - 1]) + DeleteCalls(rs[|rs| - 1].0, rs[|rs| - 1].1)
  }

  lemma ClearCallsStep(rs: seq<(Option<FramebufferHandle>, seq<Texture>)>, i: nat,
                       start: seq<GlCall>, before: seq<GlCall>, after: seq<GlCall>)
    requires i < |rs|
    requires before == start + ClearCalls(rs[..i])
    requires after == before + DeleteCalls(rs[i].0, rs[i].1)
    ensures after == start + ClearCalls(rs[..i + 1])
  {
    assert rs[..i + 1][..i] == rs[..i];
  }

  /** No framebuffer occurs twice in s. */
  predicate NoDuplicates(s: seq<Framebuffer>)
    decreases |s|
  {
    |s| == 0 || (s[|s| - 1] !in s[..|s| - 1] && NoDuplicates(s[..|s| - 1]))
  }

  lemma {:induction false} NoDuplicatesDistinct(s: seq<Framebuffer>)
    requires NoDuplicates(s)
    ensures forall a, b :: 0 <= a < b < |s| ==> s[a] != s[b]
    decreases |s|
  {
    if |s| > 0 {
      NoDuplicatesDistinct(s[..|s| - 1]);
      forall a, b | 0 <= a < b < |s|
        ensures s[a] != s[b]
      {
        if b < |s| - 1 {
          assert s[a] == s[..|s| - 1][a] && s[b] == s[..|s| - 1][b];
        } else {
          assert s[a] in s[..|s| - 1];
        }
      }
    }
  }

  /** pool.forEach(fbo => fbo.delete()) over distinct framebuffers of one context. */
  method DeleteEach(s: seq<Framebuffer>, gpu: Gpu)
    requires forall a, b :: 0 <= a < b < |s| ==> s[a] != s[b]
    requires forall f :: f in s ==> f.gpu == gpu
    modifies s, gpu`trace
    ensures forall f :: f in s ==> f.handle.None? && f.textures == []
    ensures gpu.trace == old(gpu.trace) + ClearCalls(old(Records(s)))
  {
    ghost var records := Records(s);
    ghost var start := gpu.trace;
    var i := 0;
    while i < |s|
      invariant 0 <= i <= |s|
      invariant forall j :: 0 <= j < i ==> s[j].handle.None? && |s[j].textures| == 0
      invariant forall j :: i <= j < |s| ==> unchanged(s[j])
      invariant gpu.trace == start + ClearCalls(records[..i])
    {
      ghost var before := gpu.trace;
      s[i].Delete();
      ClearCallsStep(records, i, start, before, gpu.trace);
      i := i + 1;
    }
    assert records[..i] == records;
  }

  class FramebufferPool {
    const gpu: Gpu
    var pool: seq<Framebuffer>
    var inUse: set<Framebuffer>

    /**
     * inUse is part of pool, pool has no repeated entry, and every entry is a live
     * framebuffer of this context whose attachments exist.
     */
    ghost predicate Valid()
      reads this, pool, gpu`nextTexture
    {
      && (forall f :: f in inUse ==> f in pool)
      && NoDuplicates(pool)
      && (forall f :: f in pool ==> f.gpu == gpu && gpu.Allocated(f.textures))
    }

    /** Every attachment of a pool entry is a texture of this context. */
    lemma AttachmentsAllocated(f: Framebuffer)
      requires Valid() && f in pool
      ensures gpu.Allocated(f.textures)
    {
    }

    /**
     * The net effect of a render that hands back r: r is a pool target of the requested
     * shape that was free before and is now the only target added to inUse.
     */
    predicate HandsOut(r: Framebuffer, before: set<Framebuffer>, width: int, height: int, count: int)
      reads this, r
    {
      r in pool && Fits(r, width, height, count) && r !in before && inUse == before + {r}
    }

    constructor (gpu: Gpu)
      ensures this.gpu == gpu && pool == [] && inUse == {}
      ensures Valid()
    {
      this.gpu := gpu;
      pool := [];
      inUse := {};
    }

    /** A render target of the given shape, with no check against the pass inputs. */
    method GetRead(width: int, height: int, readTextureCount: int) returns (r: Result<Framebuffer>)
      requires Valid()
      modifies this`pool, this`inUse, gpu`nextTexture, gpu`nextFramebuffer, gpu`trace
      ensures Valid()
      ensures old(gpu.nextTexture) <= gpu.nextTexture
      ensures old(FirstEligible(pool, inUse, width, height, readTextureCount, None)) < |old(pool)| ==>
        r == Success(old(pool)[old(FirstEligible(pool, inUse, width, height, readTextureCount, None))]) && pool == old(pool)
        && gpu.nextTexture == old(gpu.nextTexture) && gpu.nextFramebuffer == old(gpu.nextFramebuffer)
        && gpu.trace == old(gpu.trace)
      ensures old(FirstEligible(pool, inUse, width, height, readTextureCount, None)) == |old(pool)| && !gpu.contextLost && readTextureCount >= 1 ==>
        r.Success? && fresh(r.value) && pool == old(pool) + [r.value]
        && r.value.textures == Consecutive(old(gpu.nextTexture), readTextureCount)
      ensures r.Success? ==>
        && r.value in pool && Fits(r.value, width, height, readTextureCount)
        && r.value !in old(inUse) && inUse == old(inUse) + {r.value}
      ensures r.Failure? ==> (gpu.contextLost || readTextureCount < 1) && pool == old(pool) && inUse == old(inUse)
    {
      var i := 0;
      while i < |pool|
        invariant 0 <= i <= |pool|
        invariant pool == old(pool) && inUse == old(inUse) && unchanged(gpu)
        invariant forall j :: 0 <= j < i ==> !Eligible(pool[j], inUse, width, height, readTextureCount, None)
      {
        var fbo := pool[i];
        var fboInUse := fbo in inUse;
        var sizeMatch := fbo.width == width && fbo.height == height;
        var textureCountMatch := |fbo.textures| == readTextureCount;
        if !fboInUse && sizeMatch && textureCountMatch {
          FirstEligibleAt(pool, inUse, width, height, readTextureCount, None, i);
          inUse := inUse + {fbo};
          return Success(fbo);
        }
        i := i + 1;
      }
      FirstEligibleAt(pool, inUse, width, height, readTextureCount, None, i);
      var newFbo :- Framebuffer.Create(gpu, width, height, readTextureCount);
      assert (pool + [newFbo])[..|pool|] == pool;
      pool := pool + [newFbo];
      inUse := inUse + {newFbo};
      return Success(newFbo);
    }

    /**
     * A render target of the given shape none of whose attachments is among the pass
     * inputs, so that a pass never samples the texture it draws into.
     */
    method GetWrite(width: int, height: int, inputTextures: seq<Texture>, writeTextureCount: int)
      returns (r: Result<Framebuffer>)
      requires Valid()
      modifies this`pool, this`inUse, gpu`nextTexture, gpu`nextFramebuffer, gpu`trace
      ensures Valid()
      ensures old(gpu.nextTexture) <= gpu.nextTexture
      ensures old(FirstEligible(pool, inUse, width, height, writeTextureCount, Some(inputTextures))) < |old(pool)| ==>
        r == Success(old(pool)[old(FirstEligible(pool, inUse, width, height, writeTextureCount, Some(inputTextures)))]) && pool == old(pool)
        && gpu.nextTexture == old(gpu.nextTexture) && gpu.nextFramebuffer == old(gpu.nextFramebuffer)
        && gpu.trace == old(gpu.trace)
      ensures old(FirstEligible(pool, inUse, width, height, writeTextureCount, Some(inputTextures))) == |old(pool)| && !gpu.contextLost && writeTextureCount >= 1 ==>
        r.Success? && fresh(r.value) && pool == old(pool) + [r.value]
        && r.value.textures == Consecutive(old(gpu.nextTexture), writeTextureCount)
      ensures r.Success? ==>
        && r.value in pool && Fits(r.value, width, height, writeTextureCount)
        && r.value !in old(inUse) && inUse == old(inUse) + {r.value}
      ensures r.Success? && old(gpu.Allocated(inputTextures)) ==> SharesNone(r.value, inputTextures)
      ensures r.Failure? ==> (gpu.contextLost || writeTextureCount < 1) && pool == old(pool) && inUse == old(inUse)
    {
      var i := 0;
      while i < |pool|
        invariant 0 <= i <= |pool|
        invariant pool == old(pool) && inUse == old(inUse) && unchanged(gpu)
        invariant forall j :: 0 <= j < i ==>
          !Eligible(pool[j], inUse, width, height, writeTextureCount, Some(inputTextures))
      {
        var fbo := pool[i];
        var notInUse := fbo !in inUse;
        var sizeMatch := fbo.width == width && fbo.height == height;
        var textureCountMatch := |fbo.textures| == writeTextureCount;
        var textures := fbo.GetTextures();
        var notUsedAsInput := forall t :: t in textures ==> t !in inputTextures;
        if notInUse && sizeMatch && textureCountMatch && notUsedAsInput {
          FirstEligibleAt(pool, inUse, width, height, writeTextureCount, Some(inputTextures), i);
          inUse := inUse + {fbo};
          return Success(fbo);
        }
        i := i + 1;
      }
      FirstEligibleAt(pool, inUse, width, height, writeTextureCount, Some(inputTextures), i);
      var newFbo :- Framebuffer.Create(gpu, width, height, writeTextureCount);
      assert (pool + [newFbo])[..|pool|] == pool;
      pool := pool + [newFbo];
      inUse := inUse + {newFbo};
      return Success(newFbo);
    }

    /** Hands a target back; releasing one that is not in use only warns. */
    method Release(fbo: Framebuffer)
      requires Valid()
      modifies this`inUse
      ensures Valid()
      ensures inUse == old(inUse) - {fbo}
    {
      if fbo !in inUse {
        return;
      }
      inUse := inUse - {fbo};
    }

    /** Forgets every target after deleting its GL objects (used when a new image is loaded). */
    method Clear()
      requires Valid()
      modifies this, pool, gpu`trace
      ensures Valid()
      ensures inUse == {} && pool == []
      ensures forall f :: f in old(pool) ==> f.handle.None? && f.textures == []
      ensures gpu.trace == old(gpu.trace) + ClearCalls(old(Records(pool)))
    {
      inUse := {};
      NoDuplicatesDistinct(pool);
      DeleteEach(pool, gpu);
      pool := [];
    }
  }
}
