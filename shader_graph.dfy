/**
 * The shader graph: nodes by id (kept with their insertion order, as a JavaScript Map
 * iterates), the links between sockets (in insertion order, as a Set iterates), the
 * id counter and the render loop. Every producer's resolver counts the links it feeds,
 * so that its render target is handed back once the last consumer has run.
 */
module ShaderGraphs {
  import opened Wrappers
  import opened GpuModel
  import opened Framebuffers
  import opened FramebufferPools
  import opened Sockets
  import opened DependencyResolvers
  import opened GraphOrders
  import opened ShaderNodes
  import opened NodeInputs

  class ShaderLink {
    const fromSocket: OutputSocket
    const toSocket: InputSocket

    constructor (fromSocket: OutputSocket, toSocket: InputSocket)
      ensures this.fromSocket == fromSocket && this.toSocket == toSocket
    {
      this.fromSocket := fromSocket;
      this.toSocket := toSocket;
    }

    /**
     * connect: sockets of different types are refused with "Socket types do not match";
     * otherwise the consumer joins the producer's connections and takes it as its source.
     */
    method Connect() returns (r: Result<()>)
      modifies fromSocket`connections, toSocket`source
      ensures r.Failure? <==> fromSocket.socketType != toSocket.socketType
      ensures r.Failure? ==>
        && r.error == SocketTypeMismatch
        && fromSocket.connections == old(fromSocket.connections) && toSocket.source == old(toSocket.source)
      ensures r.Success? ==>
        && fromSocket.connections == old(fromSocket.connections) + {toSocket}
        && toSocket.source == Some(fromSocket)
    {
      if fromSocket.socketType != toSocket.socketType {
        return Failure(SocketTypeMismatch);
      }
      fromSocket.connections := fromSocket.connections + {toSocket};
      toSocket.source := Some(fromSocket);
      return Success(());
    }

    /** disconnect: the consumer leaves the producer's connections and loses its source. */
    method Disconnect()
      modifies fromSocket`connections, toSocket`source
      ensures fromSocket.connections == old(fromSocket.connections) - {toSocket}
      ensures toSocket.source == None
    {
      fromSocket.connections := fromSocket.connections - {toSocket};
      toSocket.source := None;
    }
  }

  /** Neither end of the link is connected to the other any more. */
  ghost predicate Cut(l: ShaderLink)
    reads l.fromSocket, l.toSocket
  {
    l.toSocket.source == None && l.toSocket !in l.fromSocket.connections
  }

  /** The links as (producer id, consumer id) edges, in link order. */
  function Edges(links: seq<ShaderLink>): seq<Edge>
  {
    seq(|links|, i requires 0 <= i < |links| => (links[i].fromSocket.nodeId, links[i].toSocket.nodeId))
  }

  /** The number of links whose producer is node k. */
  function Fanout(links: seq<ShaderLink>, k: nat): nat
  {
    if links == [] then 0
    else Fanout(links[..|links| - 1], k) + (if links[|links| - 1].fromSocket.nodeId == k then 1 else 0)
  }

  /** A link touches a node when either of its sockets belongs to it. */
  predicate Touches(l: ShaderLink, nodeId: nat)
  {
    l.fromSocket.nodeId == nodeId || l.toSocket.nodeId == nodeId
  }

  /** The links that touch the node, in link order. */
  function Touching(links: seq<ShaderLink>, nodeId: nat): seq<ShaderLink>
  {
    if links == [] then []
    else
      var last := links[|links| - 1];
      Touching(links[..|links| - 1], nodeId) + (if Touches(last, nodeId) then [last] else [])
  }

  /** The links that do not touch the node, in link order. */
  function Kept(links: seq<ShaderLink>, nodeId: nat): seq<ShaderLink>
  {
    if links == [] then []
    else
      var last := links[|links| - 1];
      Kept(links[..|links| - 1], nodeId) + (if Touches(last, nodeId) then [] else [last])
  }

  /** Set.delete on an insertion-ordered set: every occurrence of x leaves, the rest keep their order. */
  function Without<T(==)>(s: seq<T>, x: T): seq<T>
  {
    if s == [] then []
    else Without(s[..|s| - 1], x) + (if s[|s| - 1] == x then [] else [s[|s| - 1]])
  }

  /** The links left after deleting the given ones one by one. */
  function Drop(s: seq<ShaderLink>, removed: seq<ShaderLink>): seq<ShaderLink>
  {
    if removed == [] then s else Without(Drop(s, removed[..|removed| - 1]), removed[|removed| - 1])
  }

  function Members<T>(s: seq<T>): set<T>
  {
    set x | x in s
  }

  /** The links that are not members of r, in link order. */
  function NotIn(s: seq<ShaderLink>, r: set<ShaderLink>): seq<ShaderLink>
  {
    if s == [] then [] else NotIn(s[..|s| - 1], r) + (if s[|s| - 1] in r then [] else [s[|s| - 1]])
  }

  // ---------------------------------------------------------------- lemmas on the link list

  lemma {:induction false} TouchingMembers(links: seq<ShaderLink>, nodeId: nat)
    ensures forall l :: l in Touching(links, nodeId) <==> l in links && Touches(l, nodeId)
  {
    if links != [] {
      TouchingMembers(links[..|links| - 1], nodeId);
      assert links == links[..|links| - 1] + [links[|links| - 1]];
    }
  }

  lemma {:induction false} KeptMembers(links: seq<ShaderLink>, nodeId: nat)
    ensures forall l :: l in Kept(links, nodeId) <==> l in links && !Touches(l, nodeId)
  {
    if links != [] {
      KeptMembers(links[..|links| - 1], nodeId);
      assert links == links[..|links| - 1] + [links[|links| - 1]];
    }
  }

  lemma {:induction false} WithoutMembers<T>(s: seq<T>, x: T)
    ensures forall y :: y in Without(s, x) <==> y in s && y != x
  {
    if s != [] {
      WithoutMembers(s[..|s| - 1], x);
      assert s == s[..|s| - 1] + [s[|s| - 1]];
    }
  }

  /** The resolver count the graph keeps is the length of the producer's adjacency list. */
  lemma {:induction false} FanoutIsSucc(links: seq<ShaderLink>, k: nat)
    ensures Fanout(links, k) == |Succ(Edges(links), k)|
  {
    if links != [] {
      var init := links[..|links| - 1];
      FanoutIsSucc(init, k);
      assert Edges(links)[..|links| - 1] == Edges(init);
    }
  }

  lemma FanoutAppend(links: seq<ShaderLink>, l: ShaderLink, k: nat)
    ensures Fanout(links + [l], k) == Fanout(links, k) + (if l.fromSocket.nodeId == k then 1 else 0)
  {
    assert (links + [l])[..|links|] == links;
  }

  /** Deleting a registered link lowers its producer's fan-out by one and no other. */
  lemma {:induction false} FanoutWithout(links: seq<ShaderLink>, x: ShaderLink, k: nat)
    requires Unique(links)
    ensures Fanout(Without(links, x), k)
      == Fanout(links, k) - (if x in links && x.fromSocket.nodeId == k then 1 else 0)
  {
    if links != [] {
      var init := links[..|links| - 1];
      var last := links[|links| - 1];
      assert Unique(init);
      FanoutWithout(init, x, k);
      if last == x {
        assert x !in init;
        assert Without(links, x) == Without(init, x);
      } else {
        FanoutAppend(Without(init, x), last, k);
      }
    }
  }

  lemma {:induction false} UniqueWithout<T>(s: seq<T>, x: T)
    requires Unique(s)
    ensures Unique(Without(s, x))
  {
    if s != [] {
      var init := s[..|s| - 1];
      assert Unique(init);
      UniqueWithout(init, x);
      WithoutMembers(init, x);
      if s[|s| - 1] != x {
        UniqueAppendLink(Without(init, x), s[|s| - 1]);
      }
    }
  }

  lemma UniqueAppendLink<T>(s: seq<T>, x: T)
    requires Unique(s) && x !in s
    ensures Unique(s + [x])
  {
  }

  lemma {:induction false} UniqueTouching(links: seq<ShaderLink>, nodeId: nat)
    requires Unique(links)
    ensures Unique(Touching(links, nodeId))
  {
    if links != [] {
      var init := links[..|links| - 1];
      assert Unique(init);
      UniqueTouching(init, nodeId);
      TouchingMembers(init, nodeId);
      if Touches(links[|links| - 1], nodeId) {
        UniqueAppendLink(Touching(init, nodeId), links[|links| - 1]);
      }
    }
  }

  lemma {:induction false} WithoutNotIn(s: seq<ShaderLink>, r: set<ShaderLink>, x: ShaderLink)
    ensures Without(NotIn(s, r), x) == NotIn(s, r + {x})
  {
    if s != [] {
      var init := s[..|s| - 1];
      var last := s[|s| - 1];
      WithoutNotIn(init, r, x);
      var a := NotIn(init, r);
      var b := NotIn(init, r + {x});
      assert Without(a, x) == b;
      if last in r {
        assert NotIn(s, r) == a + [] == a;
        assert NotIn(s, r + {x}) == b + [] == b;
      } else {
        assert NotIn(s, r) == a + [last];
        assert (a + [last])[..|a|] == a;
        if last == x {
          assert Without(a + [last], x) == Without(a, x) + [];
          assert NotIn(s, r + {x}) == b + [];
        } else {
          assert Without(a + [last], x) == Without(a, x) + [last];
          assert NotIn(s, r + {x}) == b + [last];
        }
      }
    }
  }

  lemma {:induction false} DropIsNotIn(s: seq<ShaderLink>, removed: seq<ShaderLink>)
    ensures Drop(s, removed) == NotIn(s, Members(removed))
  {
    if removed == [] {
      assert Members(removed) == {};
      NotInNone(s);
    } else {
      var init := removed[..|removed| - 1];
      var x := removed[|removed| - 1];
      DropIsNotIn(s, init);
      WithoutNotIn(s, Members(init), x);
      assert Members(init) + {x} == Members(removed);
    }
  }

  lemma {:induction false} NotInNone(s: seq<ShaderLink>)
    ensures NotIn(s, {}) == s
  {
    if s != [] {
      NotInNone(s[..|s| - 1]);
    }
  }

  lemma {:induction false} NotInTouching(s: seq<ShaderLink>, r: set<ShaderLink>, nodeId: nat)
    requires forall l :: l in s ==> (l in r <==> Touches(l, nodeId))
    ensures NotIn(s, r) == Kept(s, nodeId)
  {
    if s != [] {
      NotInTouching(s[..|s| - 1], r, nodeId);
    }
  }

  /** Deleting the touching links one by one leaves exactly the links that do not touch the node. */
  lemma DropTouching(links: seq<ShaderLink>, nodeId: nat)
    ensures Drop(links, Touching(links, nodeId)) == Kept(links, nodeId)
  {
    var ts := Touching(links, nodeId);
    TouchingMembers(links, nodeId);
    DropIsNotIn(links, ts);
    NotInTouching(links, Members(ts), nodeId);
  }

  /** The node order after Map.delete: the id leaves, the others keep their order. */
  lemma UniqueWithoutId(s: seq<nat>, x: nat)
    requires Unique(s)
    ensures Unique(Without(s, x))
  {
    UniqueWithout(s, x);
  }

  lemma {:induction false} NotInMembers(s: seq<ShaderLink>, r: set<ShaderLink>)
    ensures forall l :: l in NotIn(s, r) <==> l in s && l !in r
  {
    if s != [] {
      NotInMembers(s[..|s| - 1], r);
      assert s == s[..|s| - 1] + [s[|s| - 1]];
    }
  }

  /** Deleting one more link of the list: the next Set.delete. */
  lemma DropNext(s: seq<ShaderLink>, removed: seq<ShaderLink>, j: nat)
    requires j < |removed|
    ensures Drop(s, removed[..j + 1]) == Without(Drop(s, removed[..j]), removed[j])
  {
    assert removed[..j + 1][..j] == removed[..j];
  }

  /** A link of s, listed once among the links to delete, is still there when its turn comes. */
  lemma DropStillHas(s: seq<ShaderLink>, removed: seq<ShaderLink>, j: nat)
    requires Unique(removed) && j < |removed| && removed[j] in s
    ensures removed[j] in Drop(s, removed[..j])
  {
    DropIsNotIn(s, removed[..j]);
    NotInMembers(s, Members(removed[..j]));
  }

  /** The sockets at either end of the links: what deleting them may change. */
  ghost function Producers(links: seq<ShaderLink>): set<OutputSocket>
  {
    set l | l in links :: l.fromSocket
  }

  ghost function Consumers(links: seq<ShaderLink>): set<InputSocket>
  {
    set l | l in links :: l.toSocket
  }

  lemma EndsSubset(sub: seq<ShaderLink>, links: seq<ShaderLink>)
    requires forall l :: l in sub ==> l in links
    ensures Producers(sub) <= Producers(links) && Consumers(sub) <= Consumers(links)
  {
  }

  /** `after` is `before` with one new link from `fromSocket` to `toSocket` at the back. */
  ghost predicate Registers(before: seq<ShaderLink>, after: seq<ShaderLink>, fromSocket: OutputSocket, toSocket: InputSocket)
  {
    && |after| == |before| + 1 && after[..|before|] == before
    && after[|before|].fromSocket == fromSocket && after[|before|].toSocket == toSocket
    && after[|before|] !in before
  }

  lemma RegistersAppend(links: seq<ShaderLink>, l: ShaderLink)
    requires l !in links
    ensures Registers(links, links + [l], l.fromSocket, l.toSocket)
  {
  }

  lemma FanoutAppendAll(links: seq<ShaderLink>, l: ShaderLink)
    ensures forall k :: Fanout(links + [l], k) == Fanout(links, k) + (if l.fromSocket.nodeId == k then 1 else 0)
  {
    forall k { FanoutAppend(links, l, k); }
  }

  lemma FanoutWithoutAll(links: seq<ShaderLink>, x: ShaderLink)
    requires Unique(links)
    ensures forall k ::
      Fanout(Without(links, x), k) == Fanout(links, k) - (if x in links && x.fromSocket.nodeId == k then 1 else 0)
  {
    forall k { FanoutWithout(links, x, k); }
  }

  // ---------------------------------------------------------------- the node table

  /** The keys are the ids of the order, each once, and each node sits under its own id. */
  ghost predicate Registered(nodes: map<nat, ShaderNode>, order: seq<nat>)
  {
    && (forall k :: k in nodes <==> k in order)
    && Unique(order)
    && (forall k :: k in nodes ==> nodes[k].Id() == k)
  }

  /** Every object of every node: what a render pass may change besides the pool. */
  ghost function NodeFrames(nodes: map<nat, ShaderNode>): set<object>
  {
    set k, o | k in nodes && o in nodes[k].Frame() :: o
  }

  ghost predicate AllShaped(nodes: map<nat, ShaderNode>)
  {
    forall k :: k in nodes ==> nodes[k].Shaped()
  }

  ghost function ResolverSet(nodes: map<nat, ShaderNode>): set<DependencyResolver>
  {
    set k | k in nodes :: nodes[k].Resolver()
  }

  ghost predicate DistinctResolvers(nodes: map<nat, ShaderNode>)
  {
    forall j, k :: j in nodes && k in nodes && j != k ==> nodes[j].Resolver() != nodes[k].Resolver()
  }

  /** Each node's totalDependantCount, by id. */
  ghost function CountsOf(nodes: map<nat, ShaderNode>): map<nat, int>
    reads ResolverSet(nodes)`totalDependantCount
  {
    map k | k in nodes :: nodes[k].Resolver().totalDependantCount
  }

  /** Every count equals the number of links its node feeds. */
  ghost predicate CountsMatch(counts: map<nat, int>, links: seq<ShaderLink>)
  {
    forall k :: k in counts ==> counts[k] == Fanout(links, k)
  }

  /** The counts after the producer's count (if it has one) moves by d. */
  function Bumped(counts: map<nat, int>, producer: nat, d: int): map<nat, int>
  {
    if producer in counts then counts[producer := counts[producer] + d] else counts
  }

  /** Registering a link and counting it at its producer keeps the counts exact. */
  lemma CountsAppend(counts: map<nat, int>, links: seq<ShaderLink>, l: ShaderLink)
    requires CountsMatch(counts, links)
    ensures CountsMatch(Bumped(counts, l.fromSocket.nodeId, 1), links + [l])
  {
    FanoutAppendAll(links, l);
  }

  /** Counting a link that is not registered breaks the count of a producer in the graph. */
  lemma CountsMiscount(counts: map<nat, int>, links: seq<ShaderLink>, producer: nat)
    requires CountsMatch(counts, links) && producer in counts
    ensures !CountsMatch(Bumped(counts, producer, 1), links)
  {
    assert Bumped(counts, producer, 1)[producer] == Fanout(links, producer) + 1;
  }

  /** Deleting a registered link and uncounting it at its producer keeps the counts exact. */
  lemma CountsWithout(counts: map<nat, int>, links: seq<ShaderLink>, x: ShaderLink)
    requires CountsMatch(counts, links) && Unique(links) && x in links
    ensures CountsMatch(Bumped(counts, x.fromSocket.nodeId, -1), Without(links, x))
  {
    FanoutWithoutAll(links, x);
  }

  /** addNode keeps the table registered: a new id goes to the back of the order. */
  lemma RegisteredPut(nodes: map<nat, ShaderNode>, order: seq<nat>, node: ShaderNode)
    requires Registered(nodes, order)
    ensures Registered(nodes[node.Id() := node], if node.Id() in nodes then order else order + [node.Id()])
  {
    if node.Id() !in nodes {
      UniqueAppendLink(order, node.Id());
    }
  }

  lemma PutShaped(nodes: map<nat, ShaderNode>, node: ShaderNode)
    ensures AllShaped(nodes) && node.Shaped() ==> AllShaped(nodes[node.Id() := node])
  {
  }

  lemma PutDistinct(nodes: map<nat, ShaderNode>, node: ShaderNode)
    ensures DistinctResolvers(nodes) && node.Resolver() !in ResolverSet(nodes) ==>
      DistinctResolvers(nodes[node.Id() := node])
  {
  }

  lemma PutCounted(nodes: map<nat, ShaderNode>, links: seq<ShaderLink>, node: ShaderNode)
    ensures CountsMatch(CountsOf(nodes), links) && node.Resolver().totalDependantCount == Fanout(links, node.Id()) ==>
      CountsMatch(CountsOf(nodes[node.Id() := node]), links)
  {
  }

  /** Map.delete keeps the table registered: the id leaves the keys and the order. */
  lemma RegisteredDelete(nodes: map<nat, ShaderNode>, order: seq<nat>, id: nat)
    requires Registered(nodes, order)
    ensures Registered(nodes - {id}, Without(order, id))
  {
    WithoutMembers(order, id);
    UniqueWithoutId(order, id);
  }


  lemma CountsOfDelete(nodes: map<nat, ShaderNode>, id: nat)
    ensures CountsOf(nodes - {id}) == CountsOf(nodes) - {id}
  {
  }

  lemma CountsRemove(counts: map<nat, int>, links: seq<ShaderLink>, id: nat)
    ensures CountsMatch(counts, links) ==> CountsMatch(counts - {id}, links)
  {
  }

  // ---------------------------------------------------------------- render-time reads

  /** The outputs the sockets are connected to. */
  ghost function Sources(ins: seq<InputSocket>): set<OutputSocket>
    reads set i | 0 <= i < |ins| :: ins[i]
  {
    set i | 0 <= i < |ins| && ins[i].source.Some? :: ins[i].source.value
  }

  /** Every socket has a value to read: getNodeInputTextures does not give up on them. */
  ghost predicate Supplied(ins: seq<InputSocket>)
    reads set i | 0 <= i < |ins| :: ins[i], Sources(ins)
  {
    forall i :: 0 <= i < |ins| ==> ins[i].GetValue().Some?
  }

  /** Some socket has no link into it. */
  ghost predicate Unfed(ins: seq<InputSocket>)
    reads set i | 0 <= i < |ins| :: ins[i]
  {
    exists i :: 0 <= i < |ins| && ins[i].source == None
  }

  /** A node with an unconnected input is never supplied, so it never renders. */
  lemma UnfedNotSupplied(ins: seq<InputSocket>)
    ensures Unfed(ins) ==> !Supplied(ins)
  {
    if Unfed(ins) {
      var i :| 0 <= i < |ins| && ins[i].source == None;
      assert ins[i].GetValue() == None;
    }
  }

  /** Every input node the sequence names is among the rendered ids. */
  ghost predicate InputsRendered(nodes: map<nat, ShaderNode>, s: seq<nat>, rendered: seq<nat>)
  {
    forall j :: 0 <= j < |s| && s[j] in nodes && nodes[s[j]].InputNode? ==> s[j] in rendered
  }

  /**
   * What renderPass's loop knows after the first i ids of the sequence: the rendered ids are
   * among those ids and in the table, every input node among them rendered, and a result
   * texture exists exactly when something rendered.
   */
  ghost predicate RenderedPrefix(nodes: map<nat, ShaderNode>, s: seq<nat>, i: nat, post: Option<Texture>, rendered: seq<nat>)
    requires i <= |s|
  {
    && (forall k :: k in rendered ==> k in s[..i] && k in nodes)
    && InputsRendered(nodes, s[..i], rendered)
    && (post.Some? <==> rendered != [])
  }

  lemma InputsRenderedStep(nodes: map<nat, ShaderNode>, s: seq<nat>, i: nat, rendered: seq<nat>, next: seq<nat>)
    requires i < |s| && InputsRendered(nodes, s[..i], rendered)
    requires forall k :: k in rendered ==> k in next
    requires s[i] in nodes && nodes[s[i]].InputNode? ==> s[i] in next
    ensures InputsRendered(nodes, s[..i + 1], next)
  {
    var front := s[..i + 1];
    forall j | 0 <= j < |front| && front[j] in nodes && nodes[front[j]].InputNode?
      ensures front[j] in next
    {
      if j < i {
        assert s[..i][j] == s[j];
      }
    }
  }

  /** One visit extends the rendered prefix: a visit that yields a texture adds its id. */
  lemma PrefixStep(nodes: map<nat, ShaderNode>, s: seq<nat>, i: nat, post: Option<Texture>, rendered: seq<nat>,
                   cur: Option<Texture>)
    requires i < |s| && RenderedPrefix(nodes, s, i, post, rendered)
    requires cur.Some? ==> s[i] in nodes
    requires s[i] in nodes && nodes[s[i]].InputNode? ==> cur.Some?
    ensures RenderedPrefix(nodes, s, i + 1, if cur.Some? then cur else post, if cur.Some? then rendered + [s[i]] else rendered)
  {
    var next := if cur.Some? then rendered + [s[i]] else rendered;
    InputsRenderedStep(nodes, s, i, rendered, next);
    assert s[..i + 1] == s[..i] + [s[i]];
  }

  // ---------------------------------------------------------------- which nodes render

  /** The entries of `s` at the positions where `bs` holds, in order. */
  function Picked(s: seq<nat>, bs: seq<bool>): (p: seq<nat>)
    requires |s| == |bs|
    ensures |p| <= |s|
    ensures forall k :: k in p ==> k in s
  {
    if s == [] then []
    else Picked(s[..|s| - 1], bs[..|bs| - 1]) + (if bs[|bs| - 1] then [s[|s| - 1]] else [])
  }

  lemma PickedStep(s: seq<nat>, bs: seq<bool>, b: bool)
    requires |bs| < |s|
    ensures Picked(s[..|bs| + 1], bs + [b]) == Picked(s[..|bs|], bs) + (if b then [s[|bs|]] else [])
  {
    var i := |bs|;
    var s1, bs1 := s[..i + 1], bs + [b];
    assert s1 != [] && s1[..|s1| - 1] == s[..i] && s1[|s1| - 1] == s[i];
    assert bs1[..|bs1| - 1] == bs && bs1[|bs1| - 1] == b;
  }

  /** The last entry picked is the one at the last position where `bs` holds. */
  lemma {:induction false} PickedLast(s: seq<nat>, bs: seq<bool>, j: nat)
    requires |s| == |bs| && j < |s| && bs[j]
    requires forall l :: j < l < |bs| ==> !bs[l]
    ensures Picked(s, bs) != [] && Picked(s, bs)[|Picked(s, bs)| - 1] == s[j]
  {
    var n := |s|;
    if j < n - 1 {
      assert !bs[n - 1];
      PickedLast(s[..n - 1], bs[..n - 1], j);
    }
  }

  /** Nothing is picked exactly when `bs` never holds. */
  lemma {:induction false} PickedEmpty(s: seq<nat>, bs: seq<bool>)
    requires |s| == |bs|
    ensures Picked(s, bs) == [] <==> forall l :: 0 <= l < |bs| ==> !bs[l]
  {
    if s != [] {
      var n := |s|;
      var pre := bs[..n - 1];
      PickedEmpty(s[..n - 1], pre);
      assert forall l :: 0 <= l < n - 1 ==> pre[l] == bs[l];
    }
  }

  /** Output `o` belongs to a node that rendered at one of the positions `prior` covers. */
  ghost predicate Reaches(o: OutputSocket, nodes: map<nat, ShaderNode>, s: seq<nat>, prior: seq<bool>)
  {
    exists j :: 0 <= j < |prior| && j < |s| && prior[j] && s[j] in nodes && o in nodes[s[j]].OutputSockets()
  }

  lemma ReachesStep(o: OutputSocket, nodes: map<nat, ShaderNode>, s: seq<nat>, prior: seq<bool>, b: bool)
    requires |prior| < |s|
    ensures Reaches(o, nodes, s, prior + [b]) <==>
      Reaches(o, nodes, s, prior) || (b && s[|prior|] in nodes && o in nodes[s[|prior|]].OutputSockets())
  {
    var i := |prior|;
    if b && s[i] in nodes && o in nodes[s[i]].OutputSockets() {
      assert (prior + [b])[i];
    }
    if Reaches(o, nodes, s, prior) {
      var j :| 0 <= j < |prior| && j < |s| && prior[j] && s[j] in nodes && o in nodes[s[j]].OutputSockets();
      assert (prior + [b])[j];
    }
    if Reaches(o, nodes, s, prior + [b]) {
      var j :| 0 <= j < i + 1 && j < |s| && (prior + [b])[j] && s[j] in nodes && o in nodes[s[j]].OutputSockets();
      if j < i {
        assert prior[j];
      }
    }
  }

  /**
   * When renderPass begins, a node at position i of the sequence is fed if every input is
   * linked, to an output that already holds a value or that belongs to a node at an earlier
   * position that rendered (`prior` says which did).
   */
  ghost predicate Fed(ins: seq<InputSocket>, nodes: map<nat, ShaderNode>, s: seq<nat>, prior: seq<bool>)
    reads set i | 0 <= i < |ins| :: ins[i], Sources(ins)
  {
    forall x :: 0 <= x < |ins| ==>
      ins[x].source.Some? && (ins[x].source.value.data.Some? || Reaches(ins[x].source.value, nodes, s, prior))
  }

  /** What the sockets are linked to, in socket order. */
  ghost function SourcesOf(ins: seq<InputSocket>): (r: seq<Option<OutputSocket>>)
    reads set i | 0 <= i < |ins| :: ins[i]
    ensures |r| == |ins|
    ensures forall x :: 0 <= x < |ins| ==> r[x] == ins[x].source
  {
    if ins == [] then [] else SourcesOf(ins[..|ins| - 1]) + [ins[|ins| - 1].source]
  }

  /** `links` records, for every node of the table, what its inputs are linked to. */
  ghost predicate Linked(links: map<nat, seq<Option<OutputSocket>>>, nodes: map<nat, ShaderNode>)
    reads AllInputs(nodes)
  {
    forall k :: k in nodes ==> k in links && links[k] == SourcesOf(nodes[k].InputSockets())
  }

  /**
   * Fed, over recorded links, with `full` standing for the outputs that held a value when the
   * pass began.
   */
  ghost predicate FedThrough(links: seq<Option<OutputSocket>>, full: set<OutputSocket>, nodes: map<nat, ShaderNode>,
                             s: seq<nat>, prior: seq<bool>)
  {
    forall x :: 0 <= x < |links| ==> links[x].Some? && (links[x].value in full || Reaches(links[x].value, nodes, s, prior))
  }

  /** Every input socket of the table. */
  ghost function AllInputs(nodes: map<nat, ShaderNode>): set<InputSocket>
  {
    set k, x | k in nodes && 0 <= x < |nodes[k].InputSockets()| :: nodes[k].InputSockets()[x]
  }

  /** No input socket is among the objects a render may change. */
  lemma InputsOutsideFrames(nodes: map<nat, ShaderNode>)
    ensures forall t :: t in AllInputs(nodes) ==> t !in NodeFrames(nodes)
  {
    forall t | t in AllInputs(nodes)
      ensures t !in NodeFrames(nodes)
    {
      forall k | k in nodes
        ensures t !in nodes[k].Frame()
      {
        nodes[k].FrameHasNoInput(t);
      }
    }
  }

  /** The outputs the inputs of the table are linked to. */
  ghost function AllSources(nodes: map<nat, ShaderNode>): set<OutputSocket>
    reads AllInputs(nodes)
  {
    set k, x | k in nodes && 0 <= x < |nodes[k].InputSockets()| && nodes[k].InputSockets()[x].source.Some?
      :: nodes[k].InputSockets()[x].source.value
  }

  /** The sockets of the table and the outputs linked into them are allocated. */
  lemma SocketsAllocated(nodes: map<nat, ShaderNode>)
    ensures forall t :: t in AllInputs(nodes) ==> allocated(t)
    ensures forall o :: o in AllSources(nodes) ==> allocated(o)
  {
  }

  /** Every link into one of `ins` comes from an output of `srcs`. */
  ghost predicate LinkedInto(ins: set<InputSocket>, srcs: set<OutputSocket>)
    reads ins
  {
    forall t :: t in ins && t.source.Some? ==> t.source.value in srcs
  }

  lemma SourcesLinked(nodes: map<nat, ShaderNode>)
    ensures LinkedInto(AllInputs(nodes), AllSources(nodes))
  {
    forall t | t in AllInputs(nodes) && t.source.Some?
      ensures t.source.value in AllSources(nodes)
    {
      var k, x :| k in nodes && 0 <= x < |nodes[k].InputSockets()| && nodes[k].InputSockets()[x] == t;
    }
  }

  /**
   * Each output of `srcs` holds a value exactly when it did at the start (it is in `full`) or
   * a node that rendered owns it.
   */
  ghost predicate Filled(srcs: set<OutputSocket>, full: set<OutputSocket>, nodes: map<nat, ShaderNode>, s: seq<nat>,
                         prior: seq<bool>)
    reads srcs
  {
    forall o :: o in srcs ==> (o.data.Some? <==> o in full || Reaches(o, nodes, s, prior))
  }

  /** Each outcome says whether the node at its position was fed, given the outcomes before it. */
  ghost predicate Decided(links: map<nat, seq<Option<OutputSocket>>>, full: set<OutputSocket>, nodes: map<nat, ShaderNode>,
                          s: seq<nat>, outcomes: seq<bool>)
    requires |outcomes| <= |s| && nodes.Keys <= links.Keys
  {
    forall j :: 0 <= j < |outcomes| ==>
      (outcomes[j] <==> s[j] in nodes && FedThrough(links[s[j]], full, nodes, s, outcomes[..j]))
  }

  lemma DecidedStep(links: map<nat, seq<Option<OutputSocket>>>, full: set<OutputSocket>, nodes: map<nat, ShaderNode>,
                    s: seq<nat>, outcomes: seq<bool>, b: bool)
    requires |outcomes| < |s| && nodes.Keys <= links.Keys && Decided(links, full, nodes, s, outcomes)
    requires b <==> s[|outcomes|] in nodes && FedThrough(links[s[|outcomes|]], full, nodes, s, outcomes)
    ensures Decided(links, full, nodes, s, outcomes + [b])
  {
    var next := outcomes + [b];
    forall j | 0 <= j < |next|
      ensures next[j] <==> s[j] in nodes && FedThrough(links[s[j]], full, nodes, s, next[..j])
    {
      if j < |outcomes| {
        assert next[..j] == outcomes[..j];
      } else {
        assert next[..j] == outcomes;
      }
    }
  }

  /**
   * What renderPass's loop knows, as plain values, after the first i ids of the sequence: one
   * outcome per id, each Decided; `rendered` the ids whose outcome holds, in turn, with the
   * facts of RenderedPrefix; and `lastOuts` the outputs of the last id rendered.
   */
  ghost predicate Book(links: map<nat, seq<Option<OutputSocket>>>, full: set<OutputSocket>, nodes: map<nat, ShaderNode>,
                       s: seq<nat>, i: nat, outcomes: seq<bool>, rendered: seq<nat>, post: Option<Texture>,
                       lastOuts: seq<OutputSocket>)
  {
    && i <= |s| && |outcomes| == i && nodes.Keys <= links.Keys
    && Decided(links, full, nodes, s, outcomes)
    && rendered == Picked(s[..i], outcomes)
    && RenderedPrefix(nodes, s, i, post, rendered)
    && (rendered != [] ==> rendered[|rendered| - 1] in nodes && lastOuts == nodes[rendered[|rendered| - 1]].OutputSockets())
  }

  /** One turn extends the book: a turn that yields a texture adds its id, its outputs and its texture. */
  lemma BookStep(links: map<nat, seq<Option<OutputSocket>>>, full: set<OutputSocket>, nodes: map<nat, ShaderNode>,
                 s: seq<nat>, i: nat, outcomes: seq<bool>, rendered: seq<nat>, post: Option<Texture>,
                 lastOuts: seq<OutputSocket>, cur: Option<Texture>)
    requires Book(links, full, nodes, s, i, outcomes, rendered, post, lastOuts) && i < |s|
    requires cur.Some? <==> s[i] in nodes && FedThrough(links[s[i]], full, nodes, s, outcomes)
    requires s[i] in nodes && nodes[s[i]].InputNode? ==> cur.Some?
    ensures Book(links, full, nodes, s, i + 1, outcomes + [cur.Some?], if cur.Some? then rendered + [s[i]] else rendered,
                 if cur.Some? then cur else post, if cur.Some? then nodes[s[i]].OutputSockets() else lastOuts)
  {
    var next := outcomes + [cur.Some?];
    DecidedStep(links, full, nodes, s, outcomes, cur.Some?);
    PickedStep(s, outcomes, cur.Some?);
    PrefixStep(nodes, s, i, post, rendered, cur);
    if cur.Some? {
      var r := rendered + [s[i]];
      assert r[|r| - 1] == s[i];
      assert Book(links, full, nodes, s, i + 1, next, r, cur, nodes[s[i]].OutputSockets());
    } else {
      assert Book(links, full, nodes, s, i + 1, next, rendered, post, lastOuts);
    }
  }

  /** At the end of the sequence the book speaks of the whole sequence. */
  lemma BookDone(links: map<nat, seq<Option<OutputSocket>>>, full: set<OutputSocket>, nodes: map<nat, ShaderNode>,
                 s: seq<nat>, outcomes: seq<bool>, rendered: seq<nat>, post: Option<Texture>, lastOuts: seq<OutputSocket>)
    requires Book(links, full, nodes, s, |s|, outcomes, rendered, post, lastOuts)
    ensures |outcomes| == |s| && rendered == Picked(s, outcomes)
    ensures forall j :: 0 <= j < |s| ==>
      (outcomes[j] <==> s[j] in nodes && s[j] in links && FedThrough(links[s[j]], full, nodes, s, outcomes[..j]))
    ensures post.Some? <==> rendered != []
    ensures forall k :: k in rendered ==> k in s && k in nodes
    ensures InputsRendered(nodes, s, rendered)
  {
    assert s[..|s|] == s;
  }

  /** Under Filled, a node's inputs all have values exactly when it is fed. */
  lemma SuppliedIffFed(links: map<nat, seq<Option<OutputSocket>>>, srcs: set<OutputSocket>, full: set<OutputSocket>,
                       nodes: map<nat, ShaderNode>, s: seq<nat>, prior: seq<bool>, k: nat)
    requires k in nodes && Linked(links, nodes) && LinkedInto(AllInputs(nodes), srcs) && Filled(srcs, full, nodes, s, prior)
    ensures Supplied(nodes[k].InputSockets()) <==> FedThrough(links[k], full, nodes, s, prior)
  {
    var ins := nodes[k].InputSockets();
    forall x | 0 <= x < |ins|
      ensures ins[x].GetValue().Some? <==>
        links[k][x].Some? && (links[k][x].value in full || Reaches(links[k][x].value, nodes, s, prior))
    {
      assert ins[x] in AllInputs(nodes);
    }
  }

  /**
   * Where renderPass's loop stands: the table, the linked outputs, those of them that held a
   * value when the loop began, the render sequence, and the outcomes of the turns taken so far.
   */
  datatype Progress = Progress(nodes: map<nat, ShaderNode>, srcs: set<OutputSocket>, full: set<OutputSocket>,
                               order: seq<nat>, outcomes: seq<bool>)

  /**
   * One visit keeps Filled: only the visited node's outputs change, and they then hold values.
   * `p.outcomes` ends with the outcome of the visit just made.
   */
  twostate lemma FilledStep(p: Progress)
    requires 0 < |p.outcomes| <= |p.order|
    requires old(Filled(p.srcs, p.full, p.nodes, p.order, p.outcomes[..|p.outcomes| - 1]))
    requires forall o: OutputSocket :: old(allocated(o)) && o.data != old(o.data) ==>
      var i := |p.outcomes| - 1; p.outcomes[i] && p.order[i] in p.nodes && o in p.nodes[p.order[i]].OutputSockets()
    requires var i := |p.outcomes| - 1;
      p.outcomes[i] ==> p.order[i] in p.nodes && forall o :: o in p.nodes[p.order[i]].OutputSockets() ==> o.data.Some?
    ensures Filled(p.srcs, p.full, p.nodes, p.order, p.outcomes)
  {
    var prior, b := p.outcomes[..|p.outcomes| - 1], p.outcomes[|p.outcomes| - 1];
    assert p.outcomes == prior + [b];
    forall o | o in p.srcs
      ensures o.data.Some? <==> o in p.full || Reaches(o, p.nodes, p.order, p.outcomes)
    {
      ReachesStep(o, p.nodes, p.order, prior, b);
    }
  }

  /** The linked outputs that hold a value. */
  ghost function FullSources(nodes: map<nat, ShaderNode>): set<OutputSocket>
    reads AllInputs(nodes), AllSources(nodes)
  {
    set o | o in AllSources(nodes) && o.data.Some?
  }

  /** Before any node renders, the linked outputs with a value are exactly those of FullSources. */
  lemma FilledStart(nodes: map<nat, ShaderNode>, s: seq<nat>)
    ensures Filled(AllSources(nodes), FullSources(nodes), nodes, s, [])
  {
  }

  /** The links of the table as they stand. */
  ghost function LinksOf(nodes: map<nat, ShaderNode>): (links: map<nat, seq<Option<OutputSocket>>>)
    reads AllInputs(nodes)
    ensures Linked(links, nodes)
  {
    map k | k in nodes :: SourcesOf(nodes[k].InputSockets())
  }

  /**
   * With `links` the links as they stand and `full` the linked outputs that hold a value,
   * FedThrough is Fed, for every node of the table, every order and every choice of earlier
   * outcomes.
   */
  lemma FedThroughIsFed(links: map<nat, seq<Option<OutputSocket>>>, nodes: map<nat, ShaderNode>)
    requires Linked(links, nodes)
    ensures forall k, s, prior :: k in nodes ==>
      (FedThrough(links[k], FullSources(nodes), nodes, s, prior) <==> Fed(nodes[k].InputSockets(), nodes, s, prior))
  {
    forall k, x | k in nodes && 0 <= x < |nodes[k].InputSockets()|
      ensures links[k][x] == nodes[k].InputSockets()[x].source
      ensures links[k][x].Some? ==> (links[k][x].value in FullSources(nodes) <==> links[k][x].value.data.Some?)
    {
      var t := nodes[k].InputSockets()[x];
      assert t in AllInputs(nodes);
      if t.source.Some? {
        assert t.source.value in AllSources(nodes);
      }
    }
  }

  /** Sockets that publish one value hold it, each of them. */
  lemma ValuesHeld(outs: seq<OutputSocket>, cur: Option<Texture>)
    requires cur.Some? && Values(outs) == [cur]
    ensures forall o :: o in outs ==> o.data.Some?
  {
    forall o | o in outs
      ensures o.data.Some?
    {
      var x :| 0 <= x < |outs| && outs[x] == o;
      assert Values(outs)[x] == o.data;
    }
  }

  /** A visit that changes no output's value changes no published value. */
  twostate lemma ValuesKept(outs: seq<OutputSocket>)
    requires forall o: OutputSocket :: old(allocated(o)) ==> o.data == old(o.data)
    ensures Values(outs) == old(Values(outs))
  {
  }

  /** The node no longer holds a render target the pool counts as in use. */
  ghost predicate Released(pool: FramebufferPool, node: ShaderNode)
    reads pool, node.Object()
  {
    node.HeldFramebuffer().Some? ==> node.HeldFramebuffer().value !in pool.inUse
  }

  lemma FramesCover(nodes: map<nat, ShaderNode>, k: nat)
    requires k in nodes
    ensures nodes[k].Frame() <= NodeFrames(nodes)
    ensures ResolverSet(nodes) <= NodeFrames(nodes)
  {
    forall r | r in ResolverSet(nodes)
      ensures r in NodeFrames(nodes)
    {
      var j :| j in nodes && nodes[j].Resolver() == r;
      assert r in nodes[j].Frame();
    }
  }

  // ---------------------------------------------------------------- the graph

  class WebGLShaderGraph {
    var id: nat
    var nodes: map<nat, ShaderNode>
    /** The keys of `nodes` in insertion order, the order a Map iterates them in. */
    var nodeOrder: seq<nat>
    /** The link set in insertion order. */
    var links: seq<ShaderLink>
    const inputNode: NodeInput
    const framebufferPool: FramebufferPool

    /** Every key is listed once in the order, every node sits under its own id, and no link is listed twice. */
    ghost predicate Valid()
      reads this`nodes, this`nodeOrder, this`links
    {
      Registered(nodes, nodeOrder) && Unique(links)
    }

    /** Every node has the socket shape its constructor gives it. */
    ghost predicate NodesShaped()
      reads this`nodes
    {
      AllShaped(nodes)
    }

    ghost function Resolvers(): set<DependencyResolver>
      reads this`nodes
    {
      ResolverSet(nodes)
    }

    /** No two nodes share a resolver. */
    ghost predicate ResolversDistinct()
      reads this`nodes
    {
      DistinctResolvers(nodes)
    }

    /** Every node's resolver counts exactly the registered links its output feeds. */
    ghost function Counts(): map<nat, int>
      reads this`nodes, Resolvers()`totalDependantCount
    {
      CountsOf(nodes)
    }

    ghost predicate Counted()
      reads this`nodes, this`links, Resolvers()`totalDependantCount
    {
      CountsMatch(Counts(), links)
    }

    /**
     * The constructor takes id 0 for the input node (generateId) and registers it
     * (addNode), leaving the counter at 1.
     */
    constructor (startTexture: Texture, framebufferPool: FramebufferPool)
      ensures this.framebufferPool == framebufferPool
      ensures fresh(inputNode) && inputNode.id == 0 && inputNode.startTexture == startTexture
      ensures id == 1 && nodes == map[0 := InputNode(inputNode)] && nodeOrder == [0] && links == []
      ensures Valid() && NodesShaped() && ResolversDistinct() && Counted()
    {
      this.framebufferPool := framebufferPool;
      var input := new NodeInput(0, startTexture);
      inputNode := input;
      id := 1;
      nodes := map[0 := InputNode(input)];
      nodeOrder := [0];
      links := [];
    }

    /** The graph itself is never one of a node's objects. */
    lemma OutsideFrames(nodes: map<nat, ShaderNode>)
      ensures this !in NodeFrames(nodes)
    {
    }

    /** generateId: the ids 0, 1, 2, ... in turn. */
    method GenerateId() returns (r: nat)
      modifies this`id
      ensures r == old(id) && id == old(id) + 1
    {
      r := id;
      id := id + 1;
    }

    /**
     * addNode: the node is stored under its own id (replacing a node of that id, which
     * keeps its place in the order) and the id is returned.
     */
    method AddNode(node: ShaderNode) returns (r: nat)
      requires Valid()
      modifies this`nodes, this`nodeOrder
      ensures r == node.Id() && nodes == old(nodes)[r := node]
      ensures nodeOrder == if r in old(nodes) then old(nodeOrder) else old(nodeOrder) + [r]
      ensures Valid()
      ensures old(NodesShaped()) && node.Shaped() ==> NodesShaped()
      ensures old(ResolversDistinct()) && node.Resolver() !in old(Resolvers()) ==> ResolversDistinct()
      ensures old(Counted()) && node.Resolver().totalDependantCount == Fanout(links, r) ==> Counted()
    {
      r := node.Id();
      if r !in nodes {
        nodeOrder := nodeOrder + [r];
      }
      RegisteredPut(old(nodes), old(nodeOrder), node);
      PutShaped(nodes, node);
      PutDistinct(nodes, node);
      PutCounted(nodes, links, node);
      nodes := nodes[r := node];
    }

    /**
     * connect as written: the producer's resolver count goes up before the link checks the
     * socket types, so a mismatch throws with the count raised and the link unregistered.
     */
    method Connect(fromSocket: OutputSocket, toSocket: InputSocket) returns (r: Result<()>)
      requires Unique(links)
      modifies this`links, Resolvers()`totalDependantCount, fromSocket`connections, toSocket`source
      ensures Unique(links)
      ensures r.Failure? <==> fromSocket.socketType != toSocket.socketType
      ensures r.Failure? ==>
        && r.error == SocketTypeMismatch && links == old(links)
        && fromSocket.connections == old(fromSocket.connections) && toSocket.source == old(toSocket.source)
      ensures r.Success? ==> Registers(old(links), links, fromSocket, toSocket)
      ensures r.Success? ==>
        && fromSocket.connections == old(fromSocket.connections) + {toSocket}
        && toSocket.source == Some(fromSocket)
      ensures old(Counted()) && ResolversDistinct() && r.Success? ==> Counted()
      ensures old(Counted()) && r.Failure? && fromSocket.nodeId in nodes ==> !Counted()
    {
      ghost var counts := Counts();
      var link := new ShaderLink(fromSocket, toSocket);
      assert Counts() == counts;
      Bump(fromSocket.nodeId);
      r := Link(link);
      if r.Failure? {
        return;
      }
      if CountsMatch(counts, links) {
        CountsAppend(counts, links, link);
      }
      UniqueAppendLink(links, link);
      RegistersAppend(links, link);
      links := links + [link];
    }

    /**
     * connect with the type check first: a mismatch throws and changes nothing, so the
     * resolver counts keep matching the registered links.
     */
    method ConnectChecked(fromSocket: OutputSocket, toSocket: InputSocket) returns (r: Result<()>)
      requires Unique(links)
      modifies this`links, Resolvers()`totalDependantCount, fromSocket`connections, toSocket`source
      ensures Unique(links)
      ensures r.Failure? <==> fromSocket.socketType != toSocket.socketType
      ensures r.Failure? ==> r.error == SocketTypeMismatch && links == old(links)
      ensures r.Failure? ==> Counts() == old(Counts())
      ensures r.Success? ==> Registers(old(links), links, fromSocket, toSocket)
      ensures old(Counted()) && ResolversDistinct() ==> Counted()
    {
      if fromSocket.socketType != toSocket.socketType {
        return Failure(SocketTypeMismatch);
      }
      r := Connect(fromSocket, toSocket);
    }

    /** link.connect(), which leaves the graph and its resolver counts as they are. */
    method Link(link: ShaderLink) returns (r: Result<()>)
      modifies link.fromSocket`connections, link.toSocket`source
      ensures r.Failure? <==> link.fromSocket.socketType != link.toSocket.socketType
      ensures r.Failure? ==>
        && r.error == SocketTypeMismatch
        && link.fromSocket.connections == old(link.fromSocket.connections)
        && link.toSocket.source == old(link.toSocket.source)
      ensures r.Success? ==>
        && link.fromSocket.connections == old(link.fromSocket.connections) + {link.toSocket}
        && link.toSocket.source == Some(link.fromSocket)
      ensures Counts() == old(Counts())
    {
      r := link.Connect();
    }

    /** The first loop of deleteNode: the links touching the node, in link order. */
    method LinksToRemove(nodeId: nat) returns (r: seq<ShaderLink>)
      ensures r == Touching(links, nodeId)
    {
      r := [];
      var i := 0;
      while i < |links|
        invariant 0 <= i <= |links|
        invariant r == Touching(links[..i], nodeId)
      {
        var link := links[i];
        assert links[..i + 1][..i] == links[..i];
        if Touches(link, nodeId) {
          r := r + [link];
        }
        i := i + 1;
      }
      assert links[..i] == links;
    }

    /** One turn of the loop of DisconnectAll: the j-th link of the list is cut. */
    method DisconnectStep(removed: seq<ShaderLink>, j: nat, ghost original: seq<ShaderLink>,
                          ghost done: set<ShaderLink>, ghost counted: bool)
      returns (ghost nextDone: set<ShaderLink>)
      requires j < |removed| && Unique(removed) && forall l :: l in removed ==> l in original
      requires Unique(links) && links == Drop(original, removed[..j])
      requires done == Members(removed[..j]) && forall l :: l in done ==> Cut(l)
      requires counted && ResolversDistinct() ==> Counted()
      modifies this`links, Resolvers()`totalDependantCount, Producers(removed)`connections, Consumers(removed)`source
      ensures Unique(links) && links == Drop(original, removed[..j + 1])
      ensures nextDone == Members(removed[..j + 1]) && forall l :: l in nextDone ==> Cut(l)
      ensures counted && ResolversDistinct() ==> Counted()
    {
      var link := removed[j];
      DropStillHas(original, removed, j);
      DropNext(original, removed, j);
      DisconnectNext(link, done);
      assert Members(removed[..j + 1]) == done + {link};
      nextDone := done + {link};
    }

    /**
     * The second loop of deleteNode: each listed link is disconnected in turn, which cuts
     * its sockets, deletes it from the set and uncounts it at its producer.
     */
    method DisconnectAll(removed: seq<ShaderLink>)
      requires Unique(links) && Unique(removed) && forall l :: l in removed ==> l in links
      modifies this`links, Resolvers()`totalDependantCount, Producers(removed)`connections, Consumers(removed)`source
      ensures Unique(links)
      ensures links == Drop(old(links), removed)
      ensures forall l :: l in removed ==> Cut(l)
      ensures old(Counted()) && ResolversDistinct() ==> Counted()
    {
      var j := 0;
      ghost var done: set<ShaderLink> := {};
      ghost var counted := Counted();
      while j < |removed|
        invariant 0 <= j <= |removed|
        invariant Unique(links)
        invariant links == Drop(old(links), removed[..j])
        invariant done == Members(removed[..j])
        invariant forall l :: l in done ==> Cut(l)
        invariant counted && ResolversDistinct() ==> Counted()
      {
        done := DisconnectStep(removed, j, old(links), done, counted);
        j := j + 1;
      }
      assert removed[..j] == removed;
      assert forall l :: l in removed ==> l in done;
    }

    /** One turn of that loop: disconnecting the next link leaves the links cut before it cut. */
    method DisconnectNext(link: ShaderLink, ghost done: set<ShaderLink>)
      requires Unique(links) && forall l :: l in done ==> Cut(l)
      modifies this`links, Resolvers()`totalDependantCount, link.fromSocket`connections, link.toSocket`source
      ensures Unique(links) && links == Without(old(links), link)
      ensures forall l :: l in done + {link} ==> Cut(l)
      ensures old(Counted()) && ResolversDistinct() && link in old(links) ==> Counted()
    {
      Disconnect(link);
      forall l | l in done
        ensures Cut(l)
      {
        assert old(Cut(l));
      }
    }

    /**
     * The two loops of deleteNode: the links touching the node are listed, then disconnected
     * one by one. The links left are those that do not touch it, each removed link is cut,
     * and the counts stay exact.
     */
    method DisconnectTouching(nodeId: nat)
      requires Unique(links)
      modifies this`links, Resolvers()`totalDependantCount, Producers(links)`connections, Consumers(links)`source
      ensures Unique(links) && links == Kept(old(links), nodeId)
      ensures forall l :: l in old(links) && Touches(l, nodeId) ==> Cut(l)
      ensures old(Counted()) && ResolversDistinct() ==> Counted()
    {
      ghost var counted := Counted();
      var linksToRemove := LinksToRemove(nodeId);
      assert counted ==> Counted();
      assert Unique(linksToRemove) && (forall l :: l in linksToRemove <==> l in links && Touches(l, nodeId)) by {
        UniqueTouching(links, nodeId);
        TouchingMembers(links, nodeId);
      }
      EndsSubset(linksToRemove, links);
      DisconnectAll(linksToRemove);
      DropTouching(old(links), nodeId);
    }

    /** deleteNode: the links touching the node are disconnected, then the node leaves the table. */
    method DeleteNode(nodeId: nat)
      requires Valid()
      modifies this`nodes, this`nodeOrder, this`links, Resolvers()`totalDependantCount
      modifies Producers(links)`connections, Consumers(links)`source
      ensures nodes == old(nodes) - {nodeId} && nodeOrder == Without(old(nodeOrder), nodeId)
      ensures links == Kept(old(links), nodeId)
      ensures forall l :: l in old(links) && Touches(l, nodeId) ==> Cut(l)
      ensures Valid()
      ensures old(NodesShaped()) ==> NodesShaped()
      ensures old(ResolversDistinct()) ==> ResolversDistinct()
      ensures old(Counted()) && old(ResolversDistinct()) ==> Counted()
    {
      DisconnectTouching(nodeId);
      ghost var counts := Counts();
      assert CountsMatch(counts, links) ==> CountsMatch(counts - {nodeId}, links) by {
        CountsRemove(counts, links, nodeId);
      }
      assert Registered(nodes - {nodeId}, Without(nodeOrder, nodeId)) by {
        RegisteredDelete(nodes, nodeOrder, nodeId);
      }
      assert CountsOf(nodes - {nodeId}) == counts - {nodeId} by {
        CountsOfDelete(nodes, nodeId);
      }
      nodes := nodes - {nodeId};
      nodeOrder := Without(nodeOrder, nodeId);
    }

    /** link.disconnect(), which leaves the graph and its resolver counts as they are. */
    method Unlink(link: ShaderLink)
      modifies link.fromSocket`connections, link.toSocket`source
      ensures link.fromSocket.connections == old(link.fromSocket.connections) - {link.toSocket}
      ensures link.toSocket.source == None
      ensures Counts() == old(Counts())
    {
      link.Disconnect();
    }

    /** The producer's resolver, if the producer is a node of the graph, counts one more link. */
    method Bump(producer: nat)
      modifies Resolvers()`totalDependantCount
      ensures producer in nodes ==> Counts()[producer] == old(Counts()[producer]) + 1
      ensures ResolversDistinct() ==> Counts() == Bumped(old(Counts()), producer, 1)
    {
      if producer in nodes {
        var resolver := nodes[producer].Resolver();
        resolver.totalDependantCount := resolver.totalDependantCount + 1;
      }
    }

    /** The producer's resolver, if the producer is a node of the graph, counts one link fewer. */
    method Unbump(producer: nat)
      modifies Resolvers()`totalDependantCount
      ensures producer in nodes ==> Counts()[producer] == old(Counts()[producer]) - 1
      ensures ResolversDistinct() ==> Counts() == Bumped(old(Counts()), producer, -1)
    {
      if producer in nodes {
        var resolver := nodes[producer].Resolver();
        resolver.totalDependantCount := resolver.totalDependantCount - 1;
      }
    }

    /**
     * disconnect: the producer's resolver counts one link fewer (whether or not the link
     * was registered), the sockets are cut and the link leaves the set.
     */
    method Disconnect(link: ShaderLink)
      requires Unique(links)
      modifies this`links, Resolvers()`totalDependantCount, link.fromSocket`connections, link.toSocket`source
      ensures Unique(links)
      ensures links == Without(old(links), link)
      ensures link.fromSocket.connections == old(link.fromSocket.connections) - {link.toSocket}
      ensures link.toSocket.source == None
      ensures link.fromSocket.nodeId in nodes ==>
        Counts()[link.fromSocket.nodeId] == old(Counts()[link.fromSocket.nodeId]) - 1
      ensures old(Counted()) && ResolversDistinct() && link in old(links) ==> Counted()
    {
      ghost var counts := Counts();
      Unbump(link.fromSocket.nodeId);
      Unlink(link);
      if CountsMatch(counts, links) && link in links {
        CountsWithout(counts, links, link);
      }
      UniqueWithout(links, link);
      links := Without(links, link);
    }

    /**
     * getNodeInputTextures: the values of the node's inputs in socket order, or None (with
     * a console warning) as soon as one input has no value.
     */
    method GetNodeInputTextures(node: ShaderNode) returns (r: Option<seq<Texture>>)
      ensures r.Some? <==> Supplied(node.InputSockets())
      ensures r.Some? ==> |r.value| == |node.InputSockets()|
      ensures r.Some? ==> forall i :: 0 <= i < |r.value| ==> node.InputSockets()[i].GetValue() == Some(r.value[i])
    {
      var ins := node.InputSockets();
      var textures: seq<Texture> := [];
      var i := 0;
      while i < |ins|
        invariant 0 <= i <= |ins| && |textures| == i
        invariant forall j :: 0 <= j < i ==> ins[j].GetValue() == Some(textures[j])
      {
        var tex := ins[i].GetValue();
        if tex.None? {
          return None;
        }
        textures := textures + [tex.value];
        i := i + 1;
      }
      return Some(textures);
    }

    /** releaseFramebuffer: a held target goes back to the pool; no target, nothing happens. */
    method ReleaseFramebuffer(nodeFramebuffer: Option<Framebuffer>)
      requires framebufferPool.Valid()
      modifies framebufferPool`inUse
      ensures framebufferPool.Valid()
      ensures framebufferPool.inUse == old(framebufferPool.inUse) - (if nodeFramebuffer.Some? then {nodeFramebuffer.value} else {})
    {
      if nodeFramebuffer.Some? {
        framebufferPool.Release(nodeFramebuffer.value);
      }
    }

    /**
     * One socket of reduceDependencies: when the socket's producer is a node of the graph,
     * its resolver gate is asked once, and a resolved producer hands its target back.
     */
    method ReduceDependency(socket: InputSocket)
      requires framebufferPool.Valid()
      modifies Resolvers()`dependencyUsedCount, framebufferPool`inUse
      ensures framebufferPool.Valid()
      ensures !(socket.source.Some? && socket.source.value.nodeId in nodes) ==>
        framebufferPool.inUse == old(framebufferPool.inUse)
      ensures socket.source.Some? && socket.source.value.nodeId in nodes ==>
        var producer := nodes[socket.source.value.nodeId];
        var gate := Resolve(producer.Resolver().totalDependantCount, old(producer.Resolver().dependencyUsedCount));
        && producer.Resolver().dependencyUsedCount == gate.1
        && framebufferPool.inUse == old(framebufferPool.inUse)
          - (if gate.0 && producer.HeldFramebuffer().Some? then {producer.HeldFramebuffer().value} else {})
    {
      var dependencyOutputSocket := socket.source;
      if dependencyOutputSocket.Some? {
        var dependencyNodeId := dependencyOutputSocket.value.nodeId;
        if dependencyNodeId in nodes {
          var producer := nodes[dependencyNodeId];
          var needed := producer.IsNodeNeeded();
          if needed {
            ReleaseFramebuffer(producer.HeldFramebuffer());
          }
        }
      }
    }

    /** reduceDependencies: every input socket of the node in turn; targets are only ever handed back. */
    method ReduceDependencies(node: ShaderNode)
      requires framebufferPool.Valid()
      modifies Resolvers()`dependencyUsedCount, framebufferPool`inUse
      ensures framebufferPool.Valid()
      ensures framebufferPool.inUse <= old(framebufferPool.inUse)
    {
      var inputSockets := node.InputSockets();
      var i := 0;
      while i < |inputSockets|
        invariant 0 <= i <= |inputSockets|
        invariant framebufferPool.Valid()
        invariant framebufferPool.inUse <= old(framebufferPool.inUse)
      {
        ReduceDependency(inputSockets[i]);
        i := i + 1;
      }
    }

    /**
     * The render step of renderPass: the node renders when all its inputs have values, the
     * input node (which has none) always, with its start texture.
     */
    method RenderSupplied(shaderNode: ShaderNode, textureWidth: int, textureHeight: int)
      returns (cur: Option<Texture>)
      requires shaderNode.Shaped() && framebufferPool.Valid() && !framebufferPool.gpu.contextLost
      modifies shaderNode.Frame(), framebufferPool`pool, framebufferPool`inUse
      modifies framebufferPool.gpu`nextTexture, framebufferPool.gpu`nextFramebuffer, framebufferPool.gpu`trace,
        framebufferPool.gpu`draws
      ensures framebufferPool.Valid()
      ensures cur.Some? <==> old(Supplied(shaderNode.InputSockets()))
      ensures shaderNode.InputNode? ==> cur == Some(shaderNode.input.startTexture)
      ensures cur.Some? ==> Values(shaderNode.OutputSockets()) == [cur]
      ensures cur.None? ==> unchanged(shaderNode.Frame())
      ensures forall o: OutputSocket :: old(allocated(o)) && o.data != old(o.data) ==> cur.Some? && o in shaderNode.OutputSockets()
      ensures forall t: InputSocket :: old(allocated(t)) ==> t.source == old(t.source)
    {
      shaderNode.ShapedSockets();
      var inputTextures := GetNodeInputTextures(shaderNode);
      cur := None;
      if inputTextures.Some? {
        cur := shaderNode.Render(framebufferPool, textureWidth, textureHeight, inputTextures.value);
      }
      forall o: OutputSocket | old(allocated(o))
        ensures o.data != old(o.data) ==> cur.Some? && o in shaderNode.OutputSockets()
      {
        shaderNode.FrameOutputs(o);
      }
      forall t: InputSocket | old(allocated(t))
        ensures t.source == old(t.source)
      {
        shaderNode.FrameHasNoInput(t);
      }
    }

    /**
     * One turn of renderPass for a node of the table: the render step, then the producers'
     * gates; the last node of the sequence also hands its own target back.
     */
    method VisitNode(shaderNode: ShaderNode, textureWidth: int, textureHeight: int, isLast: bool)
      returns (cur: Option<Texture>)
      requires shaderNode.Shaped() && framebufferPool.Valid() && !framebufferPool.gpu.contextLost
      modifies shaderNode.Frame(), Resolvers(), framebufferPool`pool, framebufferPool`inUse
      modifies framebufferPool.gpu`nextTexture, framebufferPool.gpu`nextFramebuffer, framebufferPool.gpu`trace,
        framebufferPool.gpu`draws
      ensures framebufferPool.Valid()
      ensures cur.Some? <==> old(Supplied(shaderNode.InputSockets()))
      ensures shaderNode.InputNode? ==> cur == Some(shaderNode.input.startTexture)
      ensures cur.Some? ==> Values(shaderNode.OutputSockets()) == [cur]
      ensures forall o: OutputSocket :: old(allocated(o)) && o.data != old(o.data) ==> cur.Some? && o in shaderNode.OutputSockets()
      ensures forall t: InputSocket :: old(allocated(t)) ==> t.source == old(t.source)
      ensures isLast ==> Released(framebufferPool, shaderNode)
    {
      cur := RenderSupplied(shaderNode, textureWidth, textureHeight);
      ReduceDependencies(shaderNode);
      if isLast {
        ReleaseFramebuffer(shaderNode.HeldFramebuffer());
      }
    }

    /**
     * One turn of renderPass's loop: the id is looked up, and a node found is visited. `p` is
     * where the loop stands before the turn, with `k` the id at the next position; the turn
     * keeps Filled, and a turn that renders nothing leaves the values of `watched` as they were.
     */
    method VisitId(k: nat, textureWidth: int, textureHeight: int, isLast: bool, ghost watched: seq<OutputSocket>,
                   ghost p: Progress)
      returns (cur: Option<Texture>)
      requires NodesShaped() && framebufferPool.Valid() && !framebufferPool.gpu.contextLost
      requires p.nodes == nodes && |p.outcomes| < |p.order| && p.order[|p.outcomes|] == k
      requires Filled(p.srcs, p.full, p.nodes, p.order, p.outcomes)
      modifies NodeFrames(nodes), framebufferPool`pool, framebufferPool`inUse
      modifies framebufferPool.gpu`nextTexture, framebufferPool.gpu`nextFramebuffer, framebufferPool.gpu`trace,
        framebufferPool.gpu`draws
      ensures nodes == old(nodes) && framebufferPool.Valid()
      ensures cur.Some? ==> k in nodes
      ensures k in nodes ==> (cur.Some? <==> old(Supplied(nodes[k].InputSockets())))
      ensures k in nodes && nodes[k].InputNode? ==> cur.Some?
      ensures cur.Some? ==> Values(nodes[k].OutputSockets()) == [cur]
      ensures cur.None? ==> Values(watched) == old(Values(watched))
      ensures Filled(p.srcs, p.full, nodes, p.order, p.outcomes + [cur.Some?])
      ensures isLast && k in nodes ==> Released(framebufferPool, nodes[k])
    {
      cur := None;
      if k in nodes {
        FramesCover(nodes, k);
        OutsideFrames(nodes);
        cur := VisitNode(nodes[k], textureWidth, textureHeight, isLast);
        if cur.Some? {
          ValuesHeld(nodes[k].OutputSockets(), cur);
        }
      }
      if cur.None? {
        ValuesKept(watched);
      }
      ghost var q := Progress(nodes, p.srcs, p.full, p.order, p.outcomes + [cur.Some?]);
      assert q.outcomes[..|q.outcomes| - 1] == p.outcomes;
      FilledStep(q);
    }

    /**
     * One turn of renderPass's loop, at position i of the sequence: the node there renders
     * exactly when it is in the table and fed, with `links` the links of the table, `full` the
     * linked outputs that held a value before the pass and `outcomes` the earlier turns. A turn
     * that renders nothing leaves the values of `watched` as they were.
     */
    method RenderStep(renderSequence: seq<nat>, i: nat, textureWidth: int, textureHeight: int,
                      ghost srcs: set<OutputSocket>, ghost full: set<OutputSocket>, ghost outcomes: seq<bool>,
                      ghost ins: set<InputSocket>, ghost links: map<nat, seq<Option<OutputSocket>>>,
                      ghost watched: seq<OutputSocket>)
      returns (cur: Option<Texture>)
      requires i < |renderSequence| && |outcomes| == i
      requires Filled(srcs, full, nodes, renderSequence, outcomes)
      requires ins == AllInputs(nodes) && LinkedInto(ins, srcs) && Linked(links, nodes) && nodes.Keys <= links.Keys
      requires NodesShaped() && framebufferPool.Valid() && !framebufferPool.gpu.contextLost
      modifies NodeFrames(nodes), framebufferPool`pool, framebufferPool`inUse
      modifies framebufferPool.gpu`nextTexture, framebufferPool.gpu`nextFramebuffer, framebufferPool.gpu`trace,
        framebufferPool.gpu`draws
      ensures nodes == old(nodes) && framebufferPool.Valid()
      ensures cur.Some? <==> renderSequence[i] in nodes && FedThrough(links[renderSequence[i]], full, nodes, renderSequence, outcomes)
      ensures renderSequence[i] in nodes && nodes[renderSequence[i]].InputNode? ==> cur.Some?
      ensures cur.Some? ==> Values(nodes[renderSequence[i]].OutputSockets()) == [cur]
      ensures cur.None? ==> Values(watched) == old(Values(watched))
      ensures Filled(srcs, full, nodes, renderSequence, outcomes + [cur.Some?])
      ensures unchanged(ins) && LinkedInto(ins, srcs) && Linked(links, nodes)
      ensures i == |renderSequence| - 1 && renderSequence[i] in nodes ==> Released(framebufferPool, nodes[renderSequence[i]])
    {
      OutsideFrames(nodes);
      var k := renderSequence[i];
      ghost var fed := k in nodes && FedThrough(links[k], full, nodes, renderSequence, outcomes);
      ghost var supplied := k in nodes && Supplied(nodes[k].InputSockets());
      assert supplied == fed by {
        if k in nodes {
          SuppliedIffFed(links, srcs, full, nodes, renderSequence, outcomes, k);
        }
      }
      InputsOutsideFrames(nodes);
      cur := VisitId(k, textureWidth, textureHeight, i == |renderSequence| - 1, watched,
                     Progress(nodes, srcs, full, renderSequence, outcomes));
    }

    /**
     * The loop of renderPass over a render sequence, from the start: `srcs` are the linked
     * outputs, `full` those of them that hold a value, `links` the links of the table. At the
     * end the book covers the whole sequence, the outputs of the last node that rendered
     * publish `post`, and the last node of the sequence has handed its target back.
     */
    method RenderLoop(renderSequence: seq<nat>, textureWidth: int, textureHeight: int, ghost srcs: set<OutputSocket>,
                      ghost full: set<OutputSocket>, ghost ins: set<InputSocket>,
                      ghost links: map<nat, seq<Option<OutputSocket>>>)
      returns (post: Option<Texture>, ghost rendered: seq<nat>, ghost outcomes: seq<bool>, ghost lastOuts: seq<OutputSocket>)
      requires NodesShaped() && framebufferPool.Valid() && !framebufferPool.gpu.contextLost
      requires Filled(srcs, full, nodes, renderSequence, [])
      requires ins == AllInputs(nodes) && LinkedInto(ins, srcs) && Linked(links, nodes) && nodes.Keys <= links.Keys
      modifies NodeFrames(nodes), framebufferPool`pool, framebufferPool`inUse
      modifies framebufferPool.gpu`nextTexture, framebufferPool.gpu`nextFramebuffer, framebufferPool.gpu`trace,
        framebufferPool.gpu`draws
      ensures nodes == old(nodes) && framebufferPool.Valid()
      ensures Book(links, full, nodes, renderSequence, |renderSequence|, outcomes, rendered, post, lastOuts)
      ensures rendered != [] ==> Values(lastOuts) == [post]
      ensures renderSequence != [] && renderSequence[|renderSequence| - 1] in nodes ==>
        Released(framebufferPool, nodes[renderSequence[|renderSequence| - 1]])
    {
      OutsideFrames(nodes);
      rendered, outcomes, lastOuts := [], [], [];
      post := None;
      var i := 0;
      while i < |renderSequence|
        invariant nodes == old(nodes) && framebufferPool.Valid()
        invariant Book(links, full, nodes, renderSequence, i, outcomes, rendered, post, lastOuts)
        invariant Filled(srcs, full, nodes, renderSequence, outcomes)
        invariant LinkedInto(ins, srcs) && Linked(links, nodes)
        invariant rendered != [] ==> Values(lastOuts) == [post]
        invariant i == |renderSequence| && i > 0 && renderSequence[i - 1] in nodes ==>
          Released(framebufferPool, nodes[renderSequence[i - 1]])
      {
        var cur := RenderStep(renderSequence, i, textureWidth, textureHeight, srcs, full, outcomes, ins, links, lastOuts);
        BookStep(links, full, nodes, renderSequence, i, outcomes, rendered, post, lastOuts, cur);
        outcomes := outcomes + [cur.Some?];
        if cur.Some? {
          post, rendered, lastOuts := cur, rendered + [renderSequence[i]], nodes[renderSequence[i]].OutputSockets();
        }
        i := i + 1;
      }
    }

    /**
     * renderPass's loop over a render sequence: `outcomes` says, position by position,
     * whether the node there rendered, which is exactly when it is in the table and every input
     * is linked to an output that held a value before the loop or belongs to a node that
     * rendered earlier; `rendered` lists those ids in turn, and the last texture is the result.
     */
    method RenderSequence(renderSequence: seq<nat>, textureWidth: int, textureHeight: int,
                          ghost links: map<nat, seq<Option<OutputSocket>>>, ghost full: set<OutputSocket>)
      returns (post: Option<Texture>, ghost rendered: seq<nat>, ghost outcomes: seq<bool>)
      requires NodesShaped() && framebufferPool.Valid() && !framebufferPool.gpu.contextLost
      requires Linked(links, nodes) && full == FullSources(nodes)
      modifies NodeFrames(nodes), framebufferPool`pool, framebufferPool`inUse
      modifies framebufferPool.gpu`nextTexture, framebufferPool.gpu`nextFramebuffer, framebufferPool.gpu`trace,
        framebufferPool.gpu`draws
      ensures nodes == old(nodes) && framebufferPool.Valid()
      ensures |outcomes| == |renderSequence| && rendered == Picked(renderSequence, outcomes)
      ensures forall j :: 0 <= j < |renderSequence| ==>
        (outcomes[j] <==> renderSequence[j] in nodes && FedThrough(links[renderSequence[j]], full, nodes, renderSequence, outcomes[..j]))
      ensures forall j :: 0 <= j < |renderSequence| ==>
        (outcomes[j] <==> renderSequence[j] in nodes && old(Fed(nodes[renderSequence[j]].InputSockets(), nodes, renderSequence, outcomes[..j])))
      ensures post.Some? <==> rendered != []
      ensures forall k :: k in rendered ==> k in renderSequence && k in nodes
      ensures InputsRendered(nodes, renderSequence, rendered)
      ensures rendered != [] ==> Values(nodes[rendered[|rendered| - 1]].OutputSockets()) == [post]
      ensures renderSequence != [] && renderSequence[|renderSequence| - 1] in nodes ==>
        Released(framebufferPool, nodes[renderSequence[|renderSequence| - 1]])
    {
      ghost var srcs, ins := AllSources(nodes), AllInputs(nodes);
      FilledStart(nodes, renderSequence);
      SourcesLinked(nodes);
      FedThroughIsFed(links, nodes);
      ghost var lastOuts;
      post, rendered, outcomes, lastOuts := RenderLoop(renderSequence, textureWidth, textureHeight, srcs, full, ins, links);
      BookDone(links, full, nodes, renderSequence, outcomes, rendered, post, lastOuts);
    }

    /**
     * renderPass: the nodes run in the topological order; a node of the table renders when
     * its inputs have values and the last texture rendered is the result; each visit
     * settles its producers' gates, and the last node of the order hands its target back.
     * A cycle makes the pass fail before anything runs. `order` is the sequence topoSort
     * produced, `outcomes` says for each position of it whether the node there rendered, and
     * `rendered` lists the ids at the positions that did, in turn.
     */
    method RenderPass(textureWidth: int, textureHeight: int)
      returns (r: Result<Option<Texture>>, ghost order: seq<nat>, ghost rendered: seq<nat>, ghost outcomes: seq<bool>)
      requires Valid() && NodesShaped() && framebufferPool.Valid() && !framebufferPool.gpu.contextLost
      modifies NodeFrames(nodes), framebufferPool`pool, framebufferPool`inUse
      modifies framebufferPool.gpu`nextTexture, framebufferPool.gpu`nextFramebuffer, framebufferPool.gpu`trace,
        framebufferPool.gpu`draws
      ensures nodes == old(nodes) && framebufferPool.Valid()
      ensures r.Failure? ==> r.error == GraphContainsCycle && framebufferPool.inUse == old(framebufferPool.inUse)
      ensures r.Failure? ==>
        framebufferPool.gpu.trace == old(framebufferPool.gpu.trace) && framebufferPool.gpu.draws == old(framebufferPool.gpu.draws)
      ensures Closed(nodeOrder, Edges(links)) ==> (r.Failure? <==> HasCycle(nodeOrder, Edges(links)))
      ensures r.Success? ==> |order| == |nodeOrder| && Unique(order) && EdgesRespected(order, Edges(links))
      ensures r.Success? ==> |outcomes| == |order| && rendered == Picked(order, outcomes)
      ensures r.Success? ==> forall j :: 0 <= j < |order| ==>
        (outcomes[j] <==> order[j] in nodes && old(Fed(nodes[order[j]].InputSockets(), nodes, order, outcomes[..j])))
      ensures r.Success? ==> (r.value.Some? <==> rendered != [])
      ensures forall k :: k in rendered ==> k in order && k in nodes
      ensures r.Success? ==> InputsRendered(nodes, order, rendered)
      ensures r.Success? && rendered != [] ==> Values(nodes[rendered[|rendered| - 1]].OutputSockets()) == [r.value]
      ensures r.Success? && order != [] && order[|order| - 1] in nodes ==>
        Released(framebufferPool, nodes[order[|order| - 1]])
    {
      rendered, outcomes := [], [];
      ghost var ins, srcs := AllInputs(nodes), AllSources(nodes);
      ghost var linksAtStart, full := LinksOf(nodes), FullSources(nodes);
      FedThroughIsFed(linksAtStart, nodes);
      SocketsAllocated(nodes);
      var sorted := TopoSort(nodeOrder, Edges(links));
      assert LinksOf(nodes) == linksAtStart && FullSources(nodes) == full by {
        assert unchanged(ins) && unchanged(srcs);
      }
      if sorted.Failure? {
        order := [];
        return Failure(GraphContainsCycle), order, rendered, outcomes;
      }
      var renderSequence := sorted.value;
      order := renderSequence;
      OutsideFrames(nodes);
      var post;
      post, rendered, outcomes := RenderSequence(renderSequence, textureWidth, textureHeight, linksAtStart, full);
      r := Success(post);
    }
  }
}
