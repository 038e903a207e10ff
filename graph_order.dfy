/**
 * The scheduling half of the shader graph: links seen as (producer id, consumer id) edges,
 * the adjacency map built from them, the in-degree table, and Kahn's algorithm with a FIFO
 * queue, which emits every node whose producers have all been emitted. A graph whose
 * emitted order is shorter than its node count is reported as containing a cycle.
 */
module GraphOrders {
  import opened Wrappers

  /** One link as (id of the producing node, id of the consuming node). */
  type Edge = (nat, nat)

  /** No element occurs twice. */
  predicate Unique<T(==)>(s: seq<T>)
  {
    forall i, j :: 0 <= i < j < |s| ==> s[i] != s[j]
  }

  function Elems(s: seq<nat>): (set_: set<nat>)
    ensures forall x :: x in set_ <==> x in s
  {
    set x | x in s
  }

  /** The consumers of producer u, one entry per link, in link order. */
  function Succ(edges: seq<Edge>, u: nat): seq<nat>
  {
    if edges == [] then []
    else Succ(edges[..|edges| - 1], u) + (if edges[|edges| - 1].0 == u then [edges[|edges| - 1].1] else [])
  }

  function Sources(edges: seq<Edge>): (s: set<nat>)
    ensures forall u :: u in s <==> exists k :: 0 <= k < |edges| && edges[k].0 == u
  {
    set k | 0 <= k < |edges| :: edges[k].0
  }

  function Targets(edges: seq<Edge>): (s: set<nat>)
    ensures forall n :: n in s <==> exists k :: 0 <= k < |edges| && edges[k].1 == n
  {
    set k | 0 <= k < |edges| :: edges[k].1
  }

  /** The number of links into n whose producer is in `from`. */
  function InFrom(edges: seq<Edge>, from: set<nat>, n: nat): nat
  {
    if edges == [] then 0
    else
      var last := edges[|edges| - 1];
      InFrom(edges[..|edges| - 1], from, n) + (if last.1 == n && last.0 in from then 1 else 0)
  }

  /** The number of occurrences of x. */
  function Count(s: seq<nat>, x: nat): nat
  {
    if s == [] then 0 else Count(s[..|s| - 1], x) + (if s[|s| - 1] == x then 1 else 0)
  }

  /** The ids the in-degree table has a key for: the nodes, and every link's consumer. */
  function Domain(nodeOrder: seq<nat>, edges: seq<Edge>): set<nat>
  {
    Elems(nodeOrder) + Targets(edges)
  }

  /** Every link's producer comes before its consumer in `order`, as far as the consumer is in it. */
  predicate EdgesRespected(order: seq<nat>, edges: seq<Edge>)
  {
    forall i, k :: 0 <= i < |order| && 0 <= k < |edges| && edges[k].1 == order[i] ==> edges[k].0 in order[..i]
  }

  /** Every link's two ends are nodes of the graph. */
  predicate Closed(nodeOrder: seq<nat>, edges: seq<Edge>)
  {
    forall k :: 0 <= k < |edges| ==> edges[k].0 in nodeOrder && edges[k].1 in nodeOrder
  }

  /** Some link into n comes from a member of `ids`. */
  ghost predicate FedFrom(n: nat, ids: set<nat>, edges: seq<Edge>)
  {
    exists k :: 0 <= k < |edges| && edges[k].1 == n && edges[k].0 in ids
  }

  /** Some link into n comes from an id that was not emitted. */
  ghost predicate WaitsOn(n: nat, emitted: seq<nat>, edges: seq<Edge>)
  {
    exists k :: 0 <= k < |edges| && edges[k].1 == n && edges[k].0 !in emitted
  }

  /** A non-empty set of ids each of which consumes from another member: a cycle lies inside. */
  ghost predicate Cyclic(ids: set<nat>, edges: seq<Edge>)
  {
    && ids != {}
    && forall n {:trigger FedFrom(n, ids, edges)} :: n in ids ==> FedFrom(n, ids, edges)
  }

  ghost predicate HasCycle(nodeOrder: seq<nat>, edges: seq<Edge>)
  {
    exists ids :: ids <= Elems(nodeOrder) && Cyclic(ids, edges)
  }

  // ---------------------------------------------------------------- lemmas on the counts

  lemma {:induction false} SuccSources(edges: seq<Edge>, u: nat)
    ensures |Succ(edges, u)| > 0 <==> u in Sources(edges)
    ensures forall x :: x in Succ(edges, u) ==> x in Targets(edges)
  {
    if edges != [] {
      var init := edges[..|edges| - 1];
      SuccSources(init, u);
      assert forall k :: 0 <= k < |init| ==> init[k] == edges[k];
      if u in Sources(edges) && edges[|edges| - 1].0 != u {
        var k :| 0 <= k < |edges| && edges[k].0 == u;
        assert init[k].0 == u;
      }
    }
  }

  lemma CountAppend(s: seq<nat>, y: nat, x: nat)
    ensures Count(s + [y], x) == Count(s, x) + (if y == x then 1 else 0)
  {
    assert (s + [y])[..|s|] == s;
  }

  lemma {:induction false} CountConcat(a: seq<nat>, b: seq<nat>, x: nat)
    ensures Count(a + b, x) == Count(a, x) + Count(b, x)
    decreases |b|
  {
    if b != [] {
      var c := b[..|b| - 1];
      assert a + b == (a + c) + [b[|b| - 1]];
      assert b == c + [b[|b| - 1]];
      CountAppend(a + c, b[|b| - 1], x);
      CountAppend(c, b[|b| - 1], x);
      CountConcat(a, c, x);
    } else {
      assert a + b == a;
    }
  }

  lemma CountPrefix(s: seq<nat>, j: nat, x: nat)
    requires j < |s|
    ensures Count(s[..j + 1], x) == Count(s[..j], x) + (if s[j] == x then 1 else 0)
    ensures Count(s[..j + 1], x) <= Count(s, x)
  {
    assert s[..j + 1] == s[..j] + [s[j]];
    CountAppend(s[..j], s[j], x);
    assert s == s[..j + 1] + s[j + 1..];
    CountConcat(s[..j + 1], s[j + 1..], x);
  }

  /**
   * Emitting producer u (not yet counted in `from`) removes from n's pending links exactly
   * the links of u's adjacency list that point at n.
   */
  lemma {:induction false} InFromAdd(edges: seq<Edge>, from: set<nat>, u: nat, n: nat)
    requires u !in from
    ensures InFrom(edges, from + {u}, n) == InFrom(edges, from, n) + Count(Succ(edges, u), n)
  {
    if edges != [] {
      var init := edges[..|edges| - 1];
      var e := edges[|edges| - 1];
      InFromAdd(init, from, u, n);
      if e.0 == u {
        CountAppend(Succ(init, u), e.1, n);
      } else {
        assert Succ(edges, u) == Succ(init, u);
      }
    }
  }

  /** No pending link into n: every link into n has its producer outside `from`. */
  lemma {:induction false} InFromZero(edges: seq<Edge>, from: set<nat>, n: nat)
    requires InFrom(edges, from, n) == 0
    ensures forall k :: 0 <= k < |edges| && edges[k].1 == n ==> edges[k].0 !in from
  {
    if edges != [] {
      var init := edges[..|edges| - 1];
      InFromZero(init, from, n);
      assert forall k :: 0 <= k < |init| ==> init[k] == edges[k];
    }
  }

  /** A pending link into n exists exactly when the count is positive. */
  lemma {:induction false} InFromPositive(edges: seq<Edge>, from: set<nat>, n: nat)
    ensures InFrom(edges, from, n) > 0 <==> exists k :: 0 <= k < |edges| && edges[k].1 == n && edges[k].0 in from
  {
    if edges != [] {
      var init := edges[..|edges| - 1];
      InFromPositive(init, from, n);
      assert forall k :: 0 <= k < |init| ==> init[k] == edges[k];
      if InFrom(edges, from, n) == InFrom(init, from, n) && InFrom(init, from, n) == 0 {
        InFromZero(edges, from, n);
      }
    }
  }

  lemma {:induction false} UniqueCard(s: seq<nat>)
    requires Unique(s)
    ensures |Elems(s)| == |s|
  {
    if s != [] {
      var init := s[..|s| - 1];
      assert Unique(init);
      UniqueCard(init);
      assert Elems(s) == Elems(init) + {s[|s| - 1]};
    }
  }

  lemma SubsetCard(a: set<nat>, b: set<nat>)
    requires a <= b && |a| == |b|
    ensures a == b
  {
    assert b == a + (b - a) && a * (b - a) == {};
    assert |b - a| == 0;
  }

  lemma RespectedAppend(order: seq<nat>, u: nat, edges: seq<Edge>)
    requires EdgesRespected(order, edges)
    requires forall k :: 0 <= k < |edges| && edges[k].1 == u ==> edges[k].0 in order
    ensures EdgesRespected(order + [u], edges)
  {
    var o := order + [u];
    forall i, k | 0 <= i < |o| && 0 <= k < |edges| && edges[k].1 == o[i]
      ensures edges[k].0 in o[..i]
    {
      if i < |order| {
        assert o[..i] == order[..i];
      } else {
        assert o[..i] == order;
      }
    }
  }

  /** With nobody pending, the count is 0. */
  lemma {:induction false} InFromNone(edges: seq<Edge>, n: nat)
    ensures InFrom(edges, {}, n) == 0
  {
    if edges != [] {
      InFromNone(edges[..|edges| - 1], n);
    }
  }

  /** An order that respects the links holds no member of a cycle: the first one would have no producer before it. */
  lemma RespectedHasNoCycle(order: seq<nat>, edges: seq<Edge>, ids: set<nat>)
    requires EdgesRespected(order, edges) && Cyclic(ids, edges)
    ensures !(ids <= Elems(order))
  {
    var i := 0;
    while i < |order|
      invariant 0 <= i <= |order|
      invariant forall j :: 0 <= j < i ==> order[j] !in ids
    {
      forall k | 0 <= k < |edges| && edges[k].1 == order[i]
        ensures edges[k].0 !in ids
      {
        assert edges[k].0 in order[..i];
      }
      assert !FedFrom(order[i], ids, edges);
      i := i + 1;
    }
    var m :| m in ids;
    assert m !in order;
  }

  // ---------------------------------------------------------------- the algorithm

  /** `adjacency` is the adjacency map of `edges`: its keys are their sources, each with its successors. */
  ghost predicate AdjacencyOf(adjacency: map<nat, seq<nat>>, edges: seq<Edge>)
  {
    && (forall u :: u in adjacency <==> u in Sources(edges))
    && (forall u :: u in adjacency ==> adjacency[u] == Succ(edges, u))
    && (forall u :: u !in adjacency ==> Succ(edges, u) == [])
  }

  /** Appending edge i under its source extends the adjacency map of the first i edges by that edge. */
  lemma AdjacencyStep(edges: seq<Edge>, i: nat, before: map<nat, seq<nat>>, after: map<nat, seq<nat>>)
    requires i < |edges| && AdjacencyOf(before, edges[..i])
    requires edges[i].0 in after
    requires after[edges[i].0] == (if edges[i].0 in before then before[edges[i].0] else []) + [edges[i].1]
    requires forall u :: u != edges[i].0 ==> (u in after <==> u in before)
    requires forall u :: u != edges[i].0 && u in before ==> after[u] == before[u]
    ensures AdjacencyOf(after, edges[..i + 1])
  {
    var front := edges[..i + 1];
    assert front[..i] == edges[..i];
    assert Sources(front) == Sources(edges[..i]) + {edges[i].0} by {
      assert forall k :: 0 <= k < i ==> front[k] == edges[..i][k];
      assert front[i] == edges[i];
    }
    forall u
      ensures Succ(front, u) == Succ(edges[..i], u) + (if edges[i].0 == u then [edges[i].1] else [])
    {
    }
  }

  /**
   * One turn of buildAdjacencyMap's loop: edge i's target is appended to its source's list,
   * which is created (and its key listed) on the source's first edge.
   */
  method AddEdge(edges: seq<Edge>, i: nat, adjacency: map<nat, seq<nat>>, keys: seq<nat>)
    returns (next: map<nat, seq<nat>>, nextKeys: seq<nat>)
    requires i < |edges| && AdjacencyOf(adjacency, edges[..i])
    requires Unique(keys) && forall u :: u in keys <==> u in adjacency
    ensures AdjacencyOf(next, edges[..i + 1])
    ensures Unique(nextKeys) && forall u :: u in nextKeys <==> u in next
  {
    var from := edges[i].0;
    var to := edges[i].1;
    next, nextKeys := adjacency, keys;
    if from !in next {
      UniqueAppend(keys, from);
      next := next[from := []];
      nextKeys := nextKeys + [from];
    }
    next := next[from := next[from] + [to]];
    AdjacencyStep(edges, i, adjacency, next);
  }

  /**
   * buildAdjacencyMap: each link's consumer is appended to its producer's list, the list
   * being created on the producer's first link. The key list is the map's insertion order.
   */
  method BuildAdjacencyMap(edges: seq<Edge>) returns (adjacency: map<nat, seq<nat>>, keys: seq<nat>)
    ensures forall u :: u in adjacency <==> u in Sources(edges)
    ensures forall u :: u in adjacency ==> adjacency[u] == Succ(edges, u)
    ensures Unique(keys) && forall u :: u in keys <==> u in adjacency
  {
    adjacency := map[];
    keys := [];
    var i := 0;
    while i < |edges|
      invariant 0 <= i <= |edges|
      invariant AdjacencyOf(adjacency, edges[..i])
      invariant Unique(keys) && forall u :: u in keys <==> u in adjacency
    {
      adjacency, keys := AddEdge(edges, i, adjacency, keys);
      i := i + 1;
    }
    assert edges[..i] == edges;
  }

  lemma UniqueAppend(s: seq<nat>, x: nat)
    requires Unique(s) && x !in s
    ensures Unique(s + [x])
  {
  }

  /** The first loop of the in-degree table: every node id with 0, in node order. */
  method InitDegrees(nodeOrder: seq<nat>) returns (inDegree: map<nat, int>, degreeOrder: seq<nat>)
    requires Unique(nodeOrder)
    ensures degreeOrder == nodeOrder
    ensures forall n :: n in inDegree <==> n in nodeOrder
    ensures forall n :: n in inDegree ==> inDegree[n] == 0
  {
    inDegree := map[];
    degreeOrder := [];
    var i := 0;
    while i < |nodeOrder|
      invariant 0 <= i <= |nodeOrder|
      invariant degreeOrder == nodeOrder[..i]
      invariant forall n :: n in inDegree <==> n in nodeOrder[..i]
      invariant forall n :: n in inDegree ==> inDegree[n] == 0
    {
      assert nodeOrder[..i + 1] == nodeOrder[..i] + [nodeOrder[i]];
      inDegree := inDegree[nodeOrder[i] := 0];
      degreeOrder := degreeOrder + [nodeOrder[i]];
      i := i + 1;
    }
    assert nodeOrder[..i] == nodeOrder;
  }

  /**
   * The inner counting loop over one adjacency list: each entry adds one to its id's
   * count, an id not yet in the table being inserted (last in its order) with count 1.
   */
  method CountList(inDegree: map<nat, int>, degreeOrder: seq<nat>, toList: seq<nat>)
    returns (inDegree': map<nat, int>, degreeOrder': seq<nat>)
    requires Unique(degreeOrder) && forall n :: n in degreeOrder <==> n in inDegree
    ensures forall n :: n in inDegree' <==> n in inDegree || Count(toList, n) > 0
    ensures forall n :: n in inDegree' ==> inDegree'[n] == (if n in inDegree then inDegree[n] else 0) + Count(toList, n)
    ensures Unique(degreeOrder') && forall n :: n in degreeOrder' <==> n in inDegree'
  {
    inDegree' := inDegree;
    degreeOrder' := degreeOrder;
    var j := 0;
    while j < |toList|
      invariant 0 <= j <= |toList|
      invariant forall n :: n in inDegree' <==> n in inDegree || Count(toList[..j], n) > 0
      invariant forall n :: n in inDegree' ==> inDegree'[n] == (if n in inDegree then inDegree[n] else 0) + Count(toList[..j], n)
      invariant Unique(degreeOrder') && forall n :: n in degreeOrder' <==> n in inDegree'
    {
      var to := toList[j];
      forall n { CountPrefix(toList, j, n); }
      if to !in inDegree' {
        UniqueAppend(degreeOrder', to);
        degreeOrder' := degreeOrder' + [to];
        inDegree' := inDegree'[to := 1];
      } else {
        inDegree' := inDegree'[to := inDegree'[to] + 1];
      }
      j := j + 1;
    }
    assert toList[..j] == toList;
  }

  /**
   * The in-degree table: 0 for every node, in node order, then one more per adjacency entry
   * pointing at the id, in the adjacency map's order. Each id ends with the number of links
   * into it.
   */
  method InDegrees(nodeOrder: seq<nat>, edges: seq<Edge>, adjacency: map<nat, seq<nat>>, keys: seq<nat>)
    returns (inDegree: map<nat, int>, degreeOrder: seq<nat>)
    requires Unique(nodeOrder)
    requires forall u :: u in adjacency <==> u in Sources(edges)
    requires forall u :: u in adjacency ==> adjacency[u] == Succ(edges, u)
    requires Unique(keys) && forall u :: u in keys <==> u in adjacency
    ensures forall n :: n in inDegree <==> n in Domain(nodeOrder, edges)
    ensures forall n :: n in inDegree ==> inDegree[n] == InFrom(edges, Sources(edges), n)
    ensures Unique(degreeOrder) && forall n :: n in degreeOrder <==> n in inDegree
  {
    inDegree, degreeOrder := InitDegrees(nodeOrder);
    ghost var counted: set<nat> := {};
    forall n { InFromNone(edges, n); }
    var i := 0;
    while i < |keys|
      invariant 0 <= i <= |keys|
      invariant counted == Elems(keys[..i])
      invariant forall n :: n in inDegree <==> n in nodeOrder || InFrom(edges, counted, n) > 0
      invariant forall n :: n in inDegree ==> inDegree[n] == InFrom(edges, counted, n)
      invariant Unique(degreeOrder) && forall n :: n in degreeOrder <==> n in inDegree
    {
      var u := keys[i];
      assert u !in counted by {
        assert forall j :: 0 <= j < i ==> keys[j] != u;
      }
      inDegree, degreeOrder := CountList(inDegree, degreeOrder, adjacency[u]);
      forall n { InFromAdd(edges, counted, u, n); }
      assert keys[..i + 1] == keys[..i] + [u];
      counted := counted + {u};
      i := i + 1;
    }
    assert keys[..i] == keys;
    assert counted == Sources(edges);
    forall n
      ensures InFrom(edges, counted, n) > 0 <==> n in Targets(edges)
    {
      InFromPositive(edges, counted, n);
    }
  }

  /** The initial queue: the ids of in-degree 0, in the table's order. */
  method ZeroQueue(inDegree: map<nat, int>, degreeOrder: seq<nat>) returns (queue: seq<nat>)
    requires Unique(degreeOrder) && forall n :: n in degreeOrder <==> n in inDegree
    ensures Unique(queue)
    ensures forall n :: n in queue <==> n in inDegree && inDegree[n] == 0
  {
    queue := [];
    var i := 0;
    while i < |degreeOrder|
      invariant 0 <= i <= |degreeOrder|
      invariant Unique(queue)
      invariant forall n :: n in queue <==> n in degreeOrder[..i] && inDegree[n] == 0
    {
      assert degreeOrder[..i + 1] == degreeOrder[..i] + [degreeOrder[i]];
      if inDegree[degreeOrder[i]] == 0 {
        queue := queue + [degreeOrder[i]];
      }
      i := i + 1;
    }
    assert degreeOrder[..i] == degreeOrder;
  }

  /**
   * The loop over one adjacency list: each consumer's in-degree drops by one per link, and
   * a consumer whose in-degree reaches 0 joins the back of the queue.
   */
  method Decrement(inDegree: map<nat, int>, ghost emitted: set<nat>, queue: seq<nat>, neighbors: seq<nat>)
    returns (inDegree': map<nat, int>, queue': seq<nat>)
    requires forall n :: n in neighbors ==> n in inDegree
    requires forall n :: n in inDegree ==> inDegree[n] >= Count(neighbors, n)
    requires Unique(queue) && forall n :: n in queue ==> n !in emitted && n in inDegree
    requires forall n :: n in inDegree ==> (inDegree[n] == 0 <==> n in emitted || n in queue)
    ensures inDegree'.Keys == inDegree.Keys
    ensures forall n :: n in inDegree' ==> inDegree'[n] == inDegree[n] - Count(neighbors, n)
    ensures Unique(queue') && forall n :: n in queue' ==> n !in emitted && n in inDegree'
    ensures forall n :: n in inDegree' ==> (inDegree'[n] == 0 <==> n in emitted || n in queue')
  {
    inDegree' := inDegree;
    queue' := queue;
    var j := 0;
    while j < |neighbors|
      invariant 0 <= j <= |neighbors|
      invariant inDegree'.Keys == inDegree.Keys
      invariant forall n :: n in inDegree' ==> inDegree'[n] == inDegree[n] - Count(neighbors[..j], n)
      invariant Unique(queue') && forall n :: n in queue' ==> n !in emitted && n in inDegree'
      invariant forall n :: n in inDegree' ==> (inDegree'[n] == 0 <==> n in emitted || n in queue')
    {
      var neighbor := neighbors[j];
      forall n { CountPrefix(neighbors, j, n); }
      var degree := inDegree'[neighbor] - 1;
      inDegree' := inDegree'[neighbor := degree];
      if degree == 0 {
        UniqueAppend(queue', neighbor);
        queue' := queue' + [neighbor];
      }
      j := j + 1;
    }
    assert neighbors[..j] == neighbors;
  }

  /**
   * The relaxation after emitting u (already in `emitted`): each consumer in u's adjacency
   * list loses a pending link, joining the queue when it has none left.
   */
  method Relax(ghost edges: seq<Edge>, adjacency: map<nat, seq<nat>>, inDegree: map<nat, int>,
               ghost emitted: set<nat>, queue: seq<nat>, u: nat)
    returns (inDegree': map<nat, int>, queue': seq<nat>)
    requires forall v :: v in adjacency <==> v in Sources(edges)
    requires forall v :: v in adjacency ==> adjacency[v] == Succ(edges, v)
    requires forall n :: n in Targets(edges) ==> n in inDegree
    requires u in emitted
    requires forall n :: n in inDegree ==> inDegree[n] == InFrom(edges, Sources(edges) - (emitted - {u}), n)
    requires Unique(queue) && forall n :: n in queue ==> n !in emitted && n in inDegree
    requires forall n :: n in inDegree ==> (inDegree[n] == 0 <==> n in emitted || n in queue)
    ensures inDegree'.Keys == inDegree.Keys
    ensures forall n :: n in inDegree' ==> inDegree'[n] == InFrom(edges, Sources(edges) - emitted, n)
    ensures Unique(queue') && forall n :: n in queue' ==> n !in emitted && n in inDegree'
    ensures forall n :: n in inDegree' ==> (inDegree'[n] == 0 <==> n in emitted || n in queue')
  {
    inDegree' := inDegree;
    queue' := queue;
    var pending := Sources(edges) - (emitted - {u});
    if u !in adjacency {
      assert Sources(edges) - emitted == pending;
      return;
    }
    var neighbors := adjacency[u];
    SuccSources(edges, u);
    forall n
      ensures InFrom(edges, pending, n) == InFrom(edges, pending - {u}, n) + Count(neighbors, n)
    {
      assert pending - {u} + {u} == pending;
      InFromAdd(edges, pending - {u}, u, n);
    }
    inDegree', queue' := Decrement(inDegree, emitted, queue, neighbors);
    assert Sources(edges) - emitted == pending - {u};
  }

  /**
   * The queue loop of topoSort: the front id is emitted and relaxes its consumers, until the
   * queue is empty. The emitted ids are distinct, each after the producers of its links, and
   * every id left out still waits on a link from an id that was not emitted.
   */
  method Drain(ghost nodeOrder: seq<nat>, ghost edges: seq<Edge>, adjacency: map<nat, seq<nat>>,
               inDegree: map<nat, int>, queue: seq<nat>)
    returns (result: seq<nat>)
    requires forall u :: u in adjacency <==> u in Sources(edges)
    requires forall u :: u in adjacency ==> adjacency[u] == Succ(edges, u)
    requires forall n :: n in inDegree <==> n in Domain(nodeOrder, edges)
    requires forall n :: n in inDegree ==> inDegree[n] == InFrom(edges, Sources(edges), n)
    requires Unique(queue) && forall n :: n in queue <==> n in inDegree && inDegree[n] == 0
    ensures Unique(result) && forall n :: n in result ==> n in Domain(nodeOrder, edges)
    ensures EdgesRespected(result, edges)
    ensures forall n {:trigger WaitsOn(n, result, edges)} :: n in Domain(nodeOrder, edges) && n !in result ==>
      WaitsOn(n, result, edges)
  {
    result := [];
    var degrees := inDegree;
    var q := queue;
    assert Sources(edges) - Elems(result) == Sources(edges);
    while |q| > 0
      invariant degrees.Keys == inDegree.Keys
      invariant forall n :: n in degrees ==> degrees[n] == InFrom(edges, Sources(edges) - Elems(result), n)
      invariant Unique(result) && forall n :: n in result ==> n in degrees
      invariant Unique(q) && forall n :: n in q ==> n !in result && n in degrees
      invariant forall n :: n in degrees ==> (degrees[n] == 0 <==> n in result || n in q)
      invariant EdgesRespected(result, edges)
      decreases degrees.Keys - Elems(result)
    {
      var u := q[0];
      q := q[1..];
      InFromZero(edges, Sources(edges) - Elems(result), u);
      RespectedAppend(result, u, edges);
      UniqueAppend(result, u);
      ghost var before := Elems(result);
      result := result + [u];
      assert Elems(result) - {u} == before;
      degrees, q := Relax(edges, adjacency, degrees, Elems(result), q, u);
    }
    forall n | n in Domain(nodeOrder, edges) && n !in result
      ensures WaitsOn(n, result, edges)
    {
      InFromPositive(edges, Sources(edges) - Elems(result), n);
    }
  }

  /**
   * topoSort on the node ids (in the node map's order) and the links: on success every node
   * is emitted once and after the producers of its links; "Graph contains a cycle" is
   * thrown when fewer ids than nodes were emitted. On a graph whose links join nodes of the
   * graph, that happens exactly when some nodes form a cycle, and a successful order is a
   * permutation of the nodes.
   */
  method TopoSort(nodeOrder: seq<nat>, edges: seq<Edge>) returns (r: Result<seq<nat>>)
    requires Unique(nodeOrder)
    ensures r.Failure? ==> r.error == GraphContainsCycle
    ensures r.Success? ==> |r.value| == |nodeOrder| && Unique(r.value) && EdgesRespected(r.value, edges)
    ensures r.Success? ==> forall n :: n in r.value ==> n in nodeOrder || n in Targets(edges)
    ensures Closed(nodeOrder, edges) ==> (r.Failure? <==> HasCycle(nodeOrder, edges))
    ensures Closed(nodeOrder, edges) && r.Success? ==> forall n :: n in r.value <==> n in nodeOrder
  {
    var adjacency, keys := BuildAdjacencyMap(edges);
    var inDegree, degreeOrder := InDegrees(nodeOrder, edges, adjacency, keys);
    var queue := ZeroQueue(inDegree, degreeOrder);
    var result := Drain(nodeOrder, edges, adjacency, inDegree, queue);
    if Closed(nodeOrder, edges) {
      ClosedOutcome(nodeOrder, edges, result);
    }
    if |result| != |nodeOrder| {
      return Failure(GraphContainsCycle);
    }
    return Success(result);
  }

  /** On a closed graph the in-degree table's keys are the node ids. */
  lemma ClosedDomain(nodeOrder: seq<nat>, edges: seq<Edge>)
    requires Closed(nodeOrder, edges)
    ensures Domain(nodeOrder, edges) == Elems(nodeOrder)
  {
    forall n | n in Targets(edges)
      ensures n in Elems(nodeOrder)
    {
      var k :| 0 <= k < |edges| && edges[k].1 == n;
    }
  }

  /** An emitted order that covers every node and respects the links rules out a cycle. */
  lemma AllEmittedAcyclic(nodeOrder: seq<nat>, edges: seq<Edge>, result: seq<nat>)
    requires Elems(result) == Elems(nodeOrder)
    requires EdgesRespected(result, edges)
    ensures !HasCycle(nodeOrder, edges)
  {
    if HasCycle(nodeOrder, edges) {
      var ids :| ids <= Elems(nodeOrder) && Cyclic(ids, edges);
      RespectedHasNoCycle(result, edges, ids);
    }
  }

  /** The nodes left over once the queue runs dry each wait on another left-over node: a cycle. */
  lemma StuckCyclic(nodeOrder: seq<nat>, edges: seq<Edge>, result: seq<nat>, left: set<nat>)
    requires Closed(nodeOrder, edges)
    requires left == Elems(nodeOrder) - Elems(result) && left != {}
    requires forall n {:trigger WaitsOn(n, result, edges)} :: n in left ==> WaitsOn(n, result, edges)
    ensures HasCycle(nodeOrder, edges)
  {
    forall n | n in left
      ensures FedFrom(n, left, edges)
    {
      assert WaitsOn(n, result, edges);
      var k :| 0 <= k < |edges| && edges[k].1 == n && edges[k].0 !in result;
      assert edges[k].0 in nodeOrder;
    }
    assert left <= Elems(nodeOrder) && Cyclic(left, edges);
  }

  /** What Drain's guarantees give on a graph whose links join its own nodes. */
  lemma ClosedOutcome(nodeOrder: seq<nat>, edges: seq<Edge>, result: seq<nat>)
    requires Unique(nodeOrder) && Closed(nodeOrder, edges)
    requires Unique(result) && forall n :: n in result ==> n in Domain(nodeOrder, edges)
    requires EdgesRespected(result, edges)
    requires forall n {:trigger WaitsOn(n, result, edges)} :: n in Domain(nodeOrder, edges) && n !in result ==>
      WaitsOn(n, result, edges)
    ensures |result| != |nodeOrder| <==> HasCycle(nodeOrder, edges)
    ensures |result| == |nodeOrder| ==> forall n :: n in result <==> n in nodeOrder
  {
    ClosedDomain(nodeOrder, edges);
    UniqueCard(result);
    UniqueCard(nodeOrder);
    assert Elems(result) <= Elems(nodeOrder);
    var left := Elems(nodeOrder) - Elems(result);
    if left == {} {
      forall n | n in Elems(nodeOrder)
        ensures n in Elems(result)
      {
        assert n !in left;
      }
      AllEmittedAcyclic(nodeOrder, edges, result);
    } else {
      forall n | n in left
        ensures WaitsOn(n, result, edges)
      {
        assert n in Domain(nodeOrder, edges) && n !in result;
      }
      StuckCyclic(nodeOrder, edges, result, left);
      if |result| == |nodeOrder| {
        SubsetCard(Elems(result), Elems(nodeOrder));
      }
    }
  }
}
