/**
 * The undo/redo history of edited images: two stacks of textures. Adding an image pushes
 * a fresh copy of it and discards the redo entries; undo and redo move the top entry from
 * one stack to the other, never emptying the undo stack.
 */
module HistoryStacks {
  import opened Wrappers
  import opened GpuModel

  /** The two stacks; the top of each is its last element. */
  datatype History = History(undoStack: seq<Texture>, redoStack: seq<Texture>)

  function Top(s: seq<Texture>): (t: Option<Texture>)
    ensures t.Some? <==> |s| > 0
    ensures t.Some? ==> t.value == s[|s| - 1]
  {
    if |s| == 0 then None else Some(s[|s| - 1])
  }

  /** undo on the stacks: the undo top moves to the redo stack unless it is the only entry. */
  function Undone(h: History): History
  {
    if |h.undoStack| <= 1 then h
    else History(h.undoStack[..|h.undoStack| - 1], h.redoStack + [h.undoStack[|h.undoStack| - 1]])
  }

  /** redo on the stacks: the redo top moves back onto the undo stack, if there is one. */
  function Redone(h: History): History
  {
    if |h.redoStack| == 0 then h
    else History(h.undoStack + [h.redoStack[|h.redoStack| - 1]], h.redoStack[..|h.redoStack| - 1])
  }

  function Count(h: History): nat
  {
    |h.undoStack| + |h.redoStack|
  }

  /** Undo and redo neither create nor lose an entry. */
  lemma UndoRedoKeepCount(h: History)
    ensures Count(Undone(h)) == Count(h) && Count(Redone(h)) == Count(h)
  {
  }

  /** An undo that moved an entry is reversed by the next redo. */
  lemma RedoUndoes(h: History)
    requires |h.undoStack| > 1
    ensures Redone(Undone(h)) == h
  {
    assert h.undoStack[..|h.undoStack| - 1] + [h.undoStack[|h.undoStack| - 1]] == h.undoStack;
  }

  /** A redo onto a non-empty undo stack is reversed by the next undo. */
  lemma UndoRedoes(h: History)
    requires |h.redoStack| > 0 && |h.undoStack| > 0
    ensures Undone(Redone(h)) == h
  {
    assert h.redoStack[..|h.redoStack| - 1] + [h.redoStack[|h.redoStack| - 1]] == h.redoStack;
  }

  /** Undo never empties a non-empty undo stack, and redo keeps it non-empty. */
  lemma UndoKeepsAnImage(h: History)
    requires |h.undoStack| > 0
    ensures |Undone(h).undoStack| > 0 && |Redone(h).undoStack| > 0
  {
  }

  /** Undo, then redo, as many times as there are undo entries to spare: the history comes back. */
  lemma {:induction false} UndoAllRedoAll(h: History, k: nat)
    requires k < |h.undoStack|
    ensures RedoTimes(UndoTimes(h, k), k) == h
    ensures |UndoTimes(h, k).undoStack| == |h.undoStack| - k
  {
    if k > 0 {
      UndoAllRedoAll(h, k - 1);
      var m := UndoTimes(h, k - 1);
      RedoUndoes(m);
    }
  }

  function UndoTimes(h: History, k: nat): History
  {
    if k == 0 then h else Undone(UndoTimes(h, k - 1))
  }

  function RedoTimes(h: History, k: nat): History
    decreases k
  {
    if k == 0 then h else RedoTimes(Redone(h), k - 1)
  }

  /** The delete calls of the redo drain: the top entry first. */
  function DrainCalls(rs: seq<Texture>): (cs: seq<GlCall>)
    ensures |cs| == |rs|
  {
    if rs == [] then [] else [DeleteTexture(rs[|rs| - 1])] + DrainCalls(rs[..|rs| - 1])
  }

  lemma DrainStep(before: seq<GlCall>, rs: seq<Texture>)
    requires |rs| > 0
    ensures (before + [DeleteTexture(rs[|rs| - 1])]) + DrainCalls(rs[..|rs| - 1]) == before + DrainCalls(rs)
  {
  }

  /** `length > MAX_STACK_SIZE`; with the limit undefined the comparison is false. */
  function Exceeds(length: int, limit: Option<nat>): (b: bool)
    ensures b <==> limit.Some? && length > limit.value
  {
    match limit
    case None => false
    case Some(l) => length > l
  }

  class WebGLHistoryStack {
    const gpu: Gpu
    /** MAX_STACK_SIZE, declared without an initializer: undefined. */
    const maxStackSize: Option<nat>
    var redoStack: seq<Texture>
    var undoStack: seq<Texture>

    constructor (gpu: Gpu)
      ensures this.gpu == gpu && maxStackSize == None && redoStack == [] && undoStack == []
    {
      this.gpu := gpu;
      maxStackSize := None;
      redoStack := [];
      undoStack := [];
    }

    function State(): History
      reads this
    {
      History(undoStack, redoStack)
    }

    /**
     * add: a fresh copy of `texture` is pushed on the undo stack, and every redo entry is
     * popped and deleted; then, past the size limit, the oldest undo entry is deleted.
     * With the limit undefined that never happens.
     */
    method Add(texture: Texture, width: int, height: int) returns (ghost copy: Texture)
      modifies this`undoStack, this`redoStack, gpu`nextTexture, gpu`trace
      ensures copy == old(gpu.nextTexture) && gpu.nextTexture == copy + 1
      ensures redoStack == []
      ensures var pushed := old(undoStack) + [copy];
        var drained := old(gpu.trace) + [CreateTexture(copy, width, height), CopyTexture(texture, copy)]
          + DrainCalls(old(redoStack));
        if Exceeds(|pushed|, maxStackSize) then
          undoStack == pushed[1..] && gpu.trace == drained + [DeleteTexture(pushed[0])]
        else
          undoStack == pushed && gpu.trace == drained
      ensures maxStackSize == None ==> undoStack == old(undoStack) + [copy]
    {
      var dstTexture := gpu.NewTexture(width, height);
      copy := dstTexture;
      gpu.Call(CopyTexture(texture, dstTexture));
      undoStack := undoStack + [dstTexture];
      ghost var afterCopy := gpu.trace;
      assert afterCopy == old(gpu.trace) + [CreateTexture(copy, width, height), CopyTexture(texture, copy)];
      ghost var oldRedo := redoStack;
      while |redoStack| > 0
        invariant gpu.trace + DrainCalls(redoStack) == afterCopy + DrainCalls(oldRedo)
        invariant undoStack == old(undoStack) + [dstTexture] && gpu.nextTexture == dstTexture + 1
      {
        var top := redoStack[|redoStack| - 1];
        DrainStep(gpu.trace, redoStack);
        redoStack := redoStack[..|redoStack| - 1];
        gpu.Call(DeleteTexture(top));
      }
      assert gpu.trace == afterCopy + DrainCalls(oldRedo);
      if Exceeds(|undoStack|, maxStackSize) {
        var oldTexture := undoStack[0];
        undoStack := undoStack[1..];
        gpu.Call(DeleteTexture(oldTexture));
      }
    }

    /** redo: the redo top moves onto the undo stack; the new undo top is returned. */
    method Redo() returns (t: Option<Texture>)
      modifies this`undoStack, this`redoStack
      ensures State() == Redone(old(State()))
      ensures t == Top(undoStack)
    {
      var empty := IsRedoStackEmpty();
      if empty {
        return GetUndoStackTop();
      }
      var nextTexture := redoStack[|redoStack| - 1];
      redoStack := redoStack[..|redoStack| - 1];
      undoStack := undoStack + [nextTexture];
      return GetUndoStackTop();
    }

    /** undo: the undo top moves to the redo stack unless it is the last entry. */
    method Undo() returns (t: Option<Texture>)
      modifies this`undoStack, this`redoStack
      ensures State() == Undone(old(State()))
      ensures t == Top(undoStack)
    {
      var almostEmpty := IsUndoStackAlmostEmpty();
      if almostEmpty {
        return GetUndoStackTop();
      }
      var prevTexture := undoStack[|undoStack| - 1];
      undoStack := undoStack[..|undoStack| - 1];
      redoStack := redoStack + [prevTexture];
      return GetUndoStackTop();
    }

    /** getTexture: the current image is the undo top. */
    function GetTexture(): (t: Option<Texture>)
      reads this
      ensures t == GetUndoStackTop()
    {
      GetUndoStackTop()
    }

    /** The last undo entry; JavaScript's `undefined` on an empty stack is None. */
    function GetUndoStackTop(): (t: Option<Texture>)
      reads this
      ensures t.Some? <==> |undoStack| > 0
      ensures t.Some? ==> t.value == undoStack[|undoStack| - 1]
    {
      Top(undoStack)
    }

    function IsUndoStackAlmostEmpty(): (b: bool)
      reads this
      ensures b <==> |undoStack| <= 1
    {
      |undoStack| <= 1
    }

    function IsRedoStackEmpty(): (b: bool)
      reads this
      ensures b <==> |redoStack| == 0
    {
      |redoStack| == 0
    }

    function GetRedoStackTop(): (t: Option<Texture>)
      reads this
      ensures t.Some? <==> |redoStack| > 0
      ensures t.Some? ==> t.value == redoStack[|redoStack| - 1]
    {
      Top(redoStack)
    }
  }
}
