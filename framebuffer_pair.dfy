/** Two framebuffers in a write slot (0) and a read slot (1) that trade places on swap. */
module FramebufferPairs {
  import opened Framebuffers

  /** The pair after exchanging its slots. */
  function Swapped(p: (Framebuffer, Framebuffer)): (q: (Framebuffer, Framebuffer))
    ensures q.0 == p.1 && q.1 == p.0
  {
    (p.1, p.0)
  }

  /** Swapping twice restores the pair. */
  lemma SwapTwiceRestores(p: (Framebuffer, Framebuffer))
    ensures Swapped(Swapped(p)) == p
  {
  }

  class FramebufferPair {
    var fboPair: (Framebuffer, Framebuffer)

    constructor (fboWrite: Framebuffer, fboRead: Framebuffer)
      ensures fboPair == (fboWrite, fboRead)
      ensures Write() == fboWrite && Read() == fboRead
    {
      fboPair := (fboWrite, fboRead);
    }

    method Swap()
      modifies this
      ensures fboPair == Swapped(old(fboPair))
      ensures Read() == old(Write()) && Write() == old(Read())
    {
      fboPair := (fboPair.1, fboPair.0);
    }

    /** The framebuffer passes read from: the second slot. */
    function Read(): (f: Framebuffer)
      reads this
      ensures f == fboPair.1
    {
      fboPair.1
    }

    /** The framebuffer passes draw into: the first slot. */
    function Write(): (f: Framebuffer)
      reads this
      ensures f == fboPair.0
    {
      fboPair.0
    }
  }
}
