/**
 * One full-screen pass: bind the target, clear it, bind the kernel's program and the
 * quad, bind input i to texture unit i, set the vertex globals and the kernel's own
 * uniforms, draw two triangles, reset the program and the quad, unbind the target.
 */
module ShaderPass {
  import opened Wrappers
  import opened GpuModel
  import opened Framebuffers

  /** activeTexture(TEXTURE0 + i); bindTexture(inputs[i]) for every input, in list order. */
  function BindInputCalls(inputs: seq<Texture>): (cs: seq<GlCall>)
    ensures |cs| == 2 * |inputs|
  {
    if inputs == [] then []
    else BindInputCalls(inputs[..|inputs| - 1])
         + [ActiveTexture(|inputs| - 1), BindTexture(inputs[|inputs| - 1])]
  }

  /** The call issued where the kernel's uniform callback is (or is missing). */
  function UniformCall(kernel: Kernel, fragmentUniforms: Option<seq<real>>): GlCall
  {
    if fragmentUniforms.Some? then SetFragmentUniforms(kernel, fragmentUniforms.value) else ConsoleError
  }

  /** The uniform values a draw runs with: none when the callback is missing. */
  function ParamsOf(fragmentUniforms: Option<seq<real>>): seq<real>
  {
    if fragmentUniforms.Some? then fragmentUniforms.value else []
  }

  /** Everything writeShader issues, in order. */
  function PassCalls(target: Option<FramebufferHandle>, targetWidth: int, targetHeight: int, kernel: Kernel,
                     inputs: seq<Texture>, width: int, height: int, fragmentUniforms: Option<seq<real>>): seq<GlCall>
  {
    [BindFramebuffer(target), Viewport(targetWidth, targetHeight), ClearCanvas,
     UseProgram(Some(kernel)), BindVertexArray(true)]
    + BindInputCalls(inputs)
    + [SetGlobalUniforms(width, height), UniformCall(kernel, fragmentUniforms), DrawTriangles(0, 6),
       BindVertexArray(false), UseProgram(None), BindFramebuffer(None)]
  }

  /** Input i is bound to texture unit i, in list order. */
  lemma {:induction false} BindInputCallsAt(inputs: seq<Texture>, i: nat)
    requires i < |inputs|
    ensures BindInputCalls(inputs)[2 * i] == ActiveTexture(i)
    ensures BindInputCalls(inputs)[2 * i + 1] == BindTexture(inputs[i])
  {
    if i < |inputs| - 1 {
      BindInputCallsAt(inputs[..|inputs| - 1], i);
    }
  }

  /**
   * The shape of a pass: the target is bound first and unbound last, cleared before
   * anything is drawn, input i goes to unit i, the vertex globals come before the
   * kernel's uniforms (or the error logged for a missing callback), both come before the
   * one draw of six vertices, and the quad and program are reset after it.
   */
  lemma PassCallsShape(target: Option<FramebufferHandle>, tw: int, th: int, kernel: Kernel,
                       inputs: seq<Texture>, width: int, height: int, fragmentUniforms: Option<seq<real>>)
    ensures var cs := PassCalls(target, tw, th, kernel, inputs, width, height, fragmentUniforms);
      var n := |inputs|;
      && |cs| == 11 + 2 * n
      && cs[0] == BindFramebuffer(target) && cs[1] == Viewport(tw, th)
      && cs[2] == ClearCanvas
      && cs[3] == UseProgram(Some(kernel)) && cs[4] == BindVertexArray(true)
      && (forall i :: 0 <= i < n ==> cs[5 + 2 * i] == ActiveTexture(i) && cs[6 + 2 * i] == BindTexture(inputs[i]))
      && cs[5 + 2 * n] == SetGlobalUniforms(width, height)
      && cs[6 + 2 * n] == (if fragmentUniforms.Some? then SetFragmentUniforms(kernel, fragmentUniforms.value)
                           else ConsoleError)
      && cs[7 + 2 * n] == DrawTriangles(0, 6)
      && cs[8 + 2 * n] == BindVertexArray(false) && cs[9 + 2 * n] == UseProgram(None)
      && cs[10 + 2 * n] == BindFramebuffer(None)
  {
    var head := [BindFramebuffer(target), Viewport(tw, th), ClearCanvas, UseProgram(Some(kernel)), BindVertexArray(true)];
    var binds := BindInputCalls(inputs);
    var tail := [SetGlobalUniforms(width, height), UniformCall(kernel, fragmentUniforms), DrawTriangles(0, 6),
                 BindVertexArray(false), UseProgram(None), BindFramebuffer(None)];
    var cs := PassCalls(target, tw, th, kernel, inputs, width, height, fragmentUniforms);
    assert cs == head + binds + tail;
    forall i | 0 <= i < |inputs|
      ensures cs[5 + 2 * i] == ActiveTexture(i) && cs[6 + 2 * i] == BindTexture(inputs[i])
    {
      BindInputCallsAt(inputs, i);
      assert cs[5 + 2 * i] == binds[2 * i] && cs[6 + 2 * i] == binds[2 * i + 1];
    }
    assert cs[5 + 2 * |inputs|..] == tail;
  }

  /** A pass issues exactly one draw call, after the uniforms, whether or not the uniform callback exists. */
  lemma PassDrawsOnce(target: Option<FramebufferHandle>, tw: int, th: int, kernel: Kernel,
                      inputs: seq<Texture>, width: int, height: int, fragmentUniforms: Option<seq<real>>)
    ensures var cs := PassCalls(target, tw, th, kernel, inputs, width, height, fragmentUniforms);
      forall i :: 0 <= i < |cs| ==> (cs[i].DrawTriangles? <==> i == 7 + 2 * |inputs|)
  {
    var head := [BindFramebuffer(target), Viewport(tw, th), ClearCanvas, UseProgram(Some(kernel)), BindVertexArray(true)];
    var binds := BindInputCalls(inputs);
    var tail := [SetGlobalUniforms(width, height), UniformCall(kernel, fragmentUniforms), DrawTriangles(0, 6),
                 BindVertexArray(false), UseProgram(None), BindFramebuffer(None)];
    var cs := PassCalls(target, tw, th, kernel, inputs, width, height, fragmentUniforms);
    assert cs == head + binds + tail;
    forall i | 5 <= i < 5 + 2 * |inputs|
      ensures !cs[i].DrawTriangles?
    {
      var j := (i - 5) / 2;
      BindInputCallsAt(inputs, j);
      assert cs[i] == binds[i - 5];
      assert i - 5 == 2 * j || i - 5 == 2 * j + 1;
    }
    assert cs[5 + 2 * |inputs|..] == tail;
  }

  lemma BindStep(inputs: seq<Texture>, i: nat, before: seq<GlCall>, after: seq<GlCall>, start: seq<GlCall>)
    requires i < |inputs|
    requires before == start + BindInputCalls(inputs[..i])
    requires after == before + [ActiveTexture(i), BindTexture(inputs[i])]
    ensures after == start + BindInputCalls(inputs[..i + 1])
  {
    assert inputs[..i + 1][..i] == inputs[..i];
  }

  lemma HeadAssemble(t0: seq<GlCall>, t1: seq<GlCall>, t2: seq<GlCall>, t3: seq<GlCall>, t4: seq<GlCall>,
                     target: Option<FramebufferHandle>, tw: int, th: int, kernel: Kernel)
    requires t1 == t0 + [BindFramebuffer(target), Viewport(tw, th)]
    requires t2 == t1 + [ClearCanvas]
    requires t3 == t2 + [UseProgram(Some(kernel))]
    requires t4 == t3 + [BindVertexArray(true)]
    ensures t4 == t0 + [BindFramebuffer(target), Viewport(tw, th), ClearCanvas, UseProgram(Some(kernel)), BindVertexArray(true)]
  {
  }

  lemma TailAssemble(t0: seq<GlCall>, t1: seq<GlCall>, t2: seq<GlCall>, t3: seq<GlCall>, t4: seq<GlCall>,
                     t5: seq<GlCall>, t6: seq<GlCall>, width: int, height: int, uniform: GlCall)
    requires t1 == t0 + [SetGlobalUniforms(width, height)]
    requires t2 == t1 + [uniform]
    requires t3 == t2 + [DrawTriangles(0, 6)]
    requires t4 == t3 + [BindVertexArray(false)]
    requires t5 == t4 + [UseProgram(None)]
    requires t6 == t5 + [BindFramebuffer(None)]
    ensures t6 == t0 + [SetGlobalUniforms(width, height), uniform, DrawTriangles(0, 6),
                        BindVertexArray(false), UseProgram(None), BindFramebuffer(None)]
  {
  }

  lemma PassAssemble(t0: seq<GlCall>, t1: seq<GlCall>, t2: seq<GlCall>, t3: seq<GlCall>,
                     head: seq<GlCall>, binds: seq<GlCall>, tail: seq<GlCall>)
    requires t1 == t0 + head
    requires t2 == t1 + binds
    requires t3 == t2 + tail
    ensures t3 == t0 + (head + binds + tail)
  {
  }

  /** webGLShaderPass.writeShader, drawing `kernel` from `inputTextures` into `fboWrite`. */
  method WriteShader(gpu: Gpu, kernel: Kernel, inputTextures: seq<Texture>, textureWidth: int, textureHeight: int,
                     fboWrite: Framebuffer, fragmentUniforms: Option<seq<real>>)
    requires fboWrite.gpu == gpu
    modifies gpu`trace, gpu`draws
    ensures gpu.trace == old(gpu.trace) + PassCalls(fboWrite.handle, fboWrite.width, fboWrite.height, kernel,
                                                    inputTextures, textureWidth, textureHeight, fragmentUniforms)
    ensures gpu.draws == old(gpu.draws) + [DrawRecord(kernel, ParamsOf(fragmentUniforms), inputTextures, fboWrite.textures)]
  {
    ghost var t0 := gpu.trace;
    fboWrite.Bind();
    ghost var t1 := gpu.trace;
    gpu.Call(ClearCanvas);
    ghost var t2 := gpu.trace;
    gpu.Call(UseProgram(Some(kernel)));
    ghost var t3 := gpu.trace;
    gpu.Call(BindVertexArray(true));
    ghost var afterHead := gpu.trace;
    HeadAssemble(t0, t1, t2, t3, afterHead, fboWrite.handle, fboWrite.width, fboWrite.height, kernel);
    var i := 0;
    while i < |inputTextures|
      invariant 0 <= i <= |inputTextures|
      invariant gpu.draws == old(gpu.draws)
      invariant gpu.trace == afterHead + BindInputCalls(inputTextures[..i])
    {
      ghost var before := gpu.trace;
      gpu.Call(ActiveTexture(i));
      gpu.Call(BindTexture(inputTextures[i]));
      BindStep(inputTextures, i, before, gpu.trace, afterHead);
      i := i + 1;
    }
    assert inputTextures[..i] == inputTextures;
    ghost var u0 := gpu.trace;
    gpu.Call(SetGlobalUniforms(textureWidth, textureHeight));
    ghost var u1 := gpu.trace;
    if fragmentUniforms.Some? {
      gpu.Call(SetFragmentUniforms(kernel, fragmentUniforms.value));
    } else {
      gpu.Call(ConsoleError);
    }
    ghost var u2 := gpu.trace;
    gpu.Draw(DrawRecord(kernel, ParamsOf(fragmentUniforms), inputTextures, fboWrite.textures));
    ghost var u3 := gpu.trace;
    gpu.Call(BindVertexArray(false));
    ghost var u4 := gpu.trace;
    gpu.Call(UseProgram(None));
    ghost var u5 := gpu.trace;
    fboWrite.Unbind();
    TailAssemble(u0, u1, u2, u3, u4, u5, gpu.trace, textureWidth, textureHeight, UniformCall(kernel, fragmentUniforms));
    PassAssemble(t0, afterHead, u0, gpu.trace,
                 [BindFramebuffer(fboWrite.handle), Viewport(fboWrite.width, fboWrite.height), ClearCanvas,
                  UseProgram(Some(kernel)), BindVertexArray(true)],
                 BindInputCalls(inputTextures),
                 [SetGlobalUniforms(textureWidth, textureHeight), UniformCall(kernel, fragmentUniforms),
                  DrawTriangles(0, 6), BindVertexArray(false), UseProgram(None), BindFramebuffer(None)]);
  }
}
