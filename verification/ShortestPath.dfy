/**
 The heap search at the core of the latency planner: Dijkstra's algorithm whose
 heap keys are costs truncated to whole nanoseconds, while the distance table
 keeps the untruncated costs.

 The search is exact for the truncated weights: a distance that is finite for
 the end node is, once truncated, the least sum of truncated edge weights over
 all paths.  `FollowPrev` rebuilds such a path.
 */
module ShortestPath {
  import opened Common

  const NANOS := 1_000_000_000.0

  datatype Edge = Edge(to: nat, weight: real)

  type Graph = seq<seq<Edge>>

  datatype Dist = Infinite | Finite(cost: real)

  /** A float-to-integer cast truncates towards zero. */
  function CostToNanos(cost: real): (ns: int)
    ensures cost >= 0.0 ==> ns as real <= cost * NANOS < ns as real + 1.0
    ensures cost >= 0.0 ==> ns >= 0
  {
    var x := cost * NANOS;
    if x >= 0.0 then x.Floor else -((-x).Floor)
  }

  /** The sum of an integral cost and a weight truncates to the sum of the truncations. */
  lemma NanosOfSum(ns: int, weight: real)
    requires ns >= 0 && weight >= 0.0
    ensures CostToNanos(ns as real / NANOS + weight) == ns + CostToNanos(weight)
  {
    var w := CostToNanos(weight);
    var s := ns as real / NANOS + weight;
    assert s * NANOS == ns as real + weight * NANOS;
    assert (ns + w) as real <= s * NANOS < (ns + w) as real + 1.0;
  }

  lemma NanosMonotone(a: real, b: real)
    requires 0.0 <= a <= b
    ensures CostToNanos(a) <= CostToNanos(b)
  {
    assert a * NANOS <= b * NANOS;
  }

  // ---------------------------------------------------------------- the heap

  /** A heap entry: the truncated cost under which a node was pushed. */
  datatype State = State(costNs: int, node: nat) {
    /** `self.cmp(other) != Greater`: the order is reversed on cost, so the greatest
        entry is a cheapest one, and ties go to the larger node. */
    predicate AtMost(other: State) {
      other.costNs < costNs || (other.costNs == costNs && node <= other.node)
    }
  }

  lemma {:induction false} GreatestExists(heap: multiset<State>) returns (top: State)
    requires heap != multiset{}
    ensures top in heap && forall s :: s in heap ==> s.AtMost(top)
    decreases |heap|
  {
    top :| top in heap;
    var rest := heap - multiset{top};
    if rest != multiset{} {
      var other := GreatestExists(rest);
      forall s | s in heap
        ensures s.AtMost(if top.AtMost(other) then other else top)
      {
        assert s == top || s in rest;
      }
      if top.AtMost(other) {
        top := other;
      }
    } else {
      forall s | s in heap ensures s == top {
        assert s == top || s in rest;
      }
    }
  }

  /** `BinaryHeap::pop`: removes the greatest entry. */
  method Pop(heap: multiset<State>) returns (top: State, rest: multiset<State>)
    requires heap != multiset{}
    ensures top in heap && rest == heap - multiset{top} && |rest| == |heap| - 1
    ensures forall s :: s in heap ==> s.AtMost(top)
    ensures forall s :: s in heap ==> top.costNs < s.costNs || (top.costNs == s.costNs && s.node <= top.node)
  {
    ghost var greatest := GreatestExists(heap);
    top :| top in heap && forall s :: s in heap ==> s.AtMost(top);
    rest := heap - multiset{top};
  }

  // ---------------------------------------------------------------- paths

  /** Edges run from one layer to the next, and weights are not negative. */
  ghost predicate Layered(g: Graph, layer: seq<nat>) {
    && |layer| == |g|
    && forall u: nat, i: nat :: u < |g| && i < |g[u]| ==> LayeredEdge(g, layer, u, g[u][i])
  }

  ghost predicate LayeredEdge(g: Graph, layer: seq<nat>, u: nat, e: Edge)
    requires |layer| == |g| && u < |g|
  {
    e.to < |g| && layer[e.to] == layer[u] + 1 && e.weight >= 0.0
  }

  ghost predicate IsPath(g: Graph, u: nat, path: seq<Edge>, v: nat)
    requires u < |g|
    decreases path
  {
    if path == [] then u == v
    else path[0] in g[u] && path[0].to < |g| && IsPath(g, path[0].to, path[1..], v)
  }

  /** The latency of a path, in seconds. */
  ghost function Latency(path: seq<Edge>): real {
    if path == [] then 0.0 else path[0].weight + Latency(path[1..])
  }

  /** The sum of the truncated weights of a path, in nanoseconds. */
  ghost function Nanos(path: seq<Edge>): int {
    if path == [] then 0 else CostToNanos(path[0].weight) + Nanos(path[1..])
  }

  lemma {:induction false} PathExtends(g: Graph, u: nat, path: seq<Edge>, v: nat, e: Edge)
    requires u < |g| && v < |g| && IsPath(g, u, path, v) && e in g[v] && e.to < |g|
    ensures IsPath(g, u, path + [e], e.to)
    ensures Nanos(path + [e]) == Nanos(path) + CostToNanos(e.weight)
    decreases path
  {
    if path == [] {
      assert path + [e] == [e];
      assert [e][1..] == [];
    } else {
      PathExtends(g, path[0].to, path[1..], v, e);
      assert (path + [e])[1..] == path[1..] + [e];
    }
  }

  /** A path climbs one layer an edge, and truncation loses less than a nanosecond an edge. */
  lemma {:induction false} PathLayers(g: Graph, layer: seq<nat>, u: nat, path: seq<Edge>, v: nat)
    requires Layered(g, layer) && u < |g| && v < |g| && IsPath(g, u, path, v)
    ensures layer[v] == layer[u] + |path|
    ensures Nanos(path) >= 0
    ensures Nanos(path) as real <= Latency(path) * NANOS
    ensures path != [] ==> Latency(path) * NANOS < (Nanos(path) + |path|) as real
    decreases path
  {
    if path != [] {
      assert LayeredEdge(g, layer, u, path[0]);
      PathLayers(g, layer, path[0].to, path[1..], v);
    }
  }

  // ---------------------------------------------------------------- the search

  ghost predicate Reached(dist: seq<Dist>, v: nat) {
    v < |dist| && dist[v].Finite?
  }

  /** `key[v]` is the heap key of node `v`: its distance, truncated. */
  ghost predicate Keyed(dist: seq<Dist>, key: seq<int>) {
    && |key| == |dist|
    && forall v: nat :: Reached(dist, v) ==> dist[v].cost >= 0.0 && key[v] == CostToNanos(dist[v].cost)
  }

  /** The edge `e` out of a node with key `k` cannot improve its target. */
  ghost predicate NoGain(dist: seq<Dist>, k: int, e: Edge) {
    Reached(dist, e.to) && dist[e.to].cost <= k as real / NANOS + e.weight
  }

  ghost predicate Relaxed(g: Graph, dist: seq<Dist>, key: seq<int>, u: nat, n: nat)
    requires u < |g| && u < |key| && n <= |g[u]|
  {
    forall i: nat :: i < n ==> NoGain(dist, key[u], g[u][i])
  }

  /** The edge `e` out of the settled node `u` gave node `v` its distance. */
  ghost predicate GaveDistance(g: Graph, dist: seq<Dist>, key: seq<int>, u: nat, e: Edge, v: nat) {
    && u < |g| && u < |key| && e in g[u] && e.to == v && Reached(dist, v)
    && dist[v].cost == key[u] as real / NANOS + e.weight
  }

  /** How `prev` explains the distances: edge `via[v]` out of the settled node `prev[v]`. */
  ghost predicate Explained(g: Graph, start: nat, dist: seq<Dist>, key: seq<int>,
                            prev: seq<Option<nat>>, via: map<nat, Edge>, todo: set<nat>)
  {
    && |dist| == |g| == |prev| && Keyed(dist, key)
    && start < |g| && dist[start] == Finite(0.0) && prev[start].None?
    && (forall v: nat :: v < |g| && v != start ==> (prev[v].Some? <==> dist[v].Finite?))
    && forall v: nat :: v < |g| && prev[v].Some? ==>
         prev[v].value !in todo && v in via && GaveDistance(g, dist, key, prev[v].value, via[v], v)
  }

  /** The heap holds the key of every node that is reached but not settled; no entry is
      cheaper than `cur`, the key popped last, or than its own node's key. */
  ghost predicate HeapCovers(dist: seq<Dist>, key: seq<int>, heap: multiset<State>, todo: set<nat>, cur: int)
    requires |key| == |dist|
  {
    && (forall v :: v in todo ==> v < |dist|)
    && (forall v :: v in todo && Reached(dist, v) ==> State(key[v], v) in heap)
    && (forall v: nat :: v < |dist| && v !in todo ==> Reached(dist, v) && key[v] <= cur)
    && (forall s :: s in heap ==> Reached(dist, s.node) && key[s.node] <= s.costNs && cur <= s.costNs)
  }

  /** What the search has established when it stops. */
  ghost predicate Stopped(g: Graph, start: nat, end: nat, dist: seq<Dist>, key: seq<int>,
                          prev: seq<Option<nat>>, via: map<nat, Edge>, todo: set<nat>)
  {
    && Explained(g, start, dist, key, prev, via, todo)
    && (forall u: nat :: u < |g| && u !in todo ==> Reached(dist, u) && Relaxed(g, dist, key, u, |g[u]|))
    && end < |g| && end in todo
    && forall v :: v in todo && Reached(dist, v) ==> Reached(dist, end) && key[end] <= key[v]
  }

  /** Lowering the distance of `v` to the cost of reaching it over an edge out of a settled
      node leaves every settled key as it was. */
  lemma KeyStep(dist: seq<Dist>, key: seq<int>, k: int, e: Edge, next: real)
    requires Keyed(dist, key) && k >= 0 && e.weight >= 0.0 && e.to < |dist|
    requires next == k as real / NANOS + e.weight
    requires Reached(dist, e.to) ==> next < dist[e.to].cost
    ensures CostToNanos(next) == k + CostToNanos(e.weight) >= k
    ensures Keyed(dist[e.to := Finite(next)], key[e.to := CostToNanos(next)])
    ensures Reached(dist, e.to) ==> CostToNanos(next) <= key[e.to]
  {
    NanosOfSum(k, e.weight);
    if Reached(dist, e.to) {
      NanosMonotone(next, dist[e.to].cost);
    }
    var dist', key' := dist[e.to := Finite(next)], key[e.to := CostToNanos(next)];
    forall v: nat | Reached(dist', v) ensures dist'[v].cost >= 0.0 && key'[v] == CostToNanos(dist'[v].cost) {
      assert v != e.to ==> Reached(dist, v);
    }
  }

  lemma RelaxKeepsHeap(dist: seq<Dist>, key: seq<int>, heap: multiset<State>, todo: set<nat>, cur: int,
                       v: nat, next: real, k: int)
    requires |key| == |dist| && HeapCovers(dist, key, heap, todo, cur)
    requires v < |dist| && cur <= k && (Reached(dist, v) ==> k <= key[v])
    ensures HeapCovers(dist[v := Finite(next)], key[v := k], heap + multiset{State(k, v)}, todo, cur)
  {
    var dist', key', heap' := dist[v := Finite(next)], key[v := k], heap + multiset{State(k, v)};
    forall u | u in todo && Reached(dist', u) ensures State(key'[u], u) in heap' {
      assert u != v ==> Reached(dist, u);
    }
    forall s | s in heap' ensures Reached(dist', s.node) && key'[s.node] <= s.costNs && cur <= s.costNs {
      assert s in heap || s == State(k, v);
    }
  }

  lemma RelaxKeepsExplained(g: Graph, start: nat, dist: seq<Dist>, key: seq<int>, prev: seq<Option<nat>>,
                            via: map<nat, Edge>, todo: set<nat>, u: nat, e: Edge, next: real, k: int)
    requires Explained(g, start, dist, key, prev, via, todo)
    requires u < |g| && u !in todo && e in g[u] && e.to < |g| && e.to != start
    requires next == key[u] as real / NANOS + e.weight
    requires e.to !in todo ==> k == key[e.to]
    requires Keyed(dist[e.to := Finite(next)], key[e.to := k])
    requires e.to != u
    ensures Explained(g, start, dist[e.to := Finite(next)], key[e.to := k], prev[e.to := Some(u)],
                      via[e.to := e], todo)
  {
  }

  lemma RelaxKeepsRelaxed(g: Graph, dist: seq<Dist>, key: seq<int>, todo: set<nat>, u: nat, i: nat,
                          v: nat, next: real, k: int)
    requires |dist| == |g| == |key| && u < |g| && i < |g[u]| && v < |g| && v != u && g[u][i].to == v
    requires next == key[u] as real / NANOS + g[u][i].weight
    requires Reached(dist, v) ==> next < dist[v].cost
    requires v !in todo ==> k == key[v]
    requires forall x: nat :: x < |g| && x !in todo && x != u ==> Relaxed(g, dist, key, x, |g[x]|)
    requires Relaxed(g, dist, key, u, i)
    ensures var dist', key' := dist[v := Finite(next)], key[v := k];
            && (forall x: nat :: x < |g| && x !in todo && x != u ==> Relaxed(g, dist', key', x, |g[x]|))
            && Relaxed(g, dist', key', u, i + 1)
  {
    var dist', key' := dist[v := Finite(next)], key[v := k];
    forall x: nat, j: nat | x < |g| && j < |g[x]| && NoGain(dist, key[x], g[x][j])
      ensures NoGain(dist', key[x], g[x][j])
    {
    }
    forall x: nat | x < |g| && x !in todo && x != u
      ensures Relaxed(g, dist', key', x, |g[x]|)
    {
      assert key'[x] == key[x];
    }
  }

  lemma KeyAtLeast(cost: real, ns: int)
    requires cost >= 0.0 && ns as real / NANOS <= cost
    ensures ns <= CostToNanos(cost)
  {
    assert ns as real <= cost * NANOS;
  }

  /** The nodes of a graph of size `n`. */
  ghost function Nodes(n: nat): (r: set<nat>)
    ensures forall v: nat :: v in r <==> v < n
  {
    if n == 0 then {} else Nodes(n - 1) + {n - 1}
  }

  /** Dropping the popped entry keeps the heap invariant when the popped node is stale or
      becomes settled. */
  lemma PopKeepsHeap(dist: seq<Dist>, key: seq<int>, heap: multiset<State>, todo: set<nat>, cur: int, top: State)
    requires Keyed(dist, key) && HeapCovers(dist, key, heap, todo, cur)
    requires top in heap && forall s :: s in heap ==> s.AtMost(top)
    ensures top.node < |dist| && Reached(dist, top.node) && key[top.node] <= top.costNs && cur <= top.costNs
    ensures top.costNs as real / NANOS > dist[top.node].cost ==>
              HeapCovers(dist, key, heap - multiset{top}, todo, top.costNs)
    ensures top.costNs as real / NANOS <= dist[top.node].cost ==>
              && key[top.node] == top.costNs
              && HeapCovers(dist, key, heap - multiset{top}, todo - {top.node}, top.costNs)
  {
    var rest := heap - multiset{top};
    assert Reached(dist, top.node);
    assert key[top.node] == CostToNanos(dist[top.node].cost);
    var stale := top.costNs as real / NANOS > dist[top.node].cost;
    if !stale {
      KeyAtLeast(dist[top.node].cost, top.costNs);
    }
    forall s | s in rest ensures top.costNs <= s.costNs {
      assert s in heap;
    }
    forall v | v in todo && Reached(dist, v) && (stale || v != top.node)
      ensures State(key[v], v) in rest
    {
      assert State(key[v], v) in heap && State(key[v], v) != top;
    }
  }

  /** What holds between two rounds of the search: keys are explained by edges, the heap covers
      the nodes to do, and the edges of all others are relaxed. */
  ghost predicate Searching(g: Graph, start: nat, dist: seq<Dist>, key: seq<int>, prev: seq<Option<nat>>,
                            via: map<nat, Edge>, heap: multiset<State>, todo: set<nat>, cur: int)
  {
    && Explained(g, start, dist, key, prev, via, todo)
    && HeapCovers(dist, key, heap, todo, cur)
    && forall u: nat :: u < |g| && u !in todo ==> Relaxed(g, dist, key, u, |g[u]|)
  }

  lemma EmptyHeapStops(g: Graph, start: nat, end: nat, dist: seq<Dist>, key: seq<int>, prev: seq<Option<nat>>,
                       via: map<nat, Edge>, heap: multiset<State>, todo: set<nat>, cur: int)
    requires Searching(g, start, dist, key, prev, via, heap, todo, cur) && heap == multiset{} && end in todo
    ensures Stopped(g, start, end, dist, key, prev, via, todo)
  {
    hide Relaxed;
  }

  /** When the end node is popped, its key is the least among the nodes not settled. */
  lemma PopEndStops(g: Graph, start: nat, dist: seq<Dist>, key: seq<int>, prev: seq<Option<nat>>,
                    via: map<nat, Edge>, heap: multiset<State>, todo: set<nat>, cur: int, top: State)
    requires Searching(g, start, dist, key, prev, via, heap, todo, cur) && top.node in todo
    requires top in heap && forall s :: s in heap ==> s.AtMost(top)
    ensures Stopped(g, start, top.node, dist, key, prev, via, todo)
  {
    assert Reached(dist, top.node);
    forall v | v in todo && Reached(dist, v) ensures key[top.node] <= key[v] {
      assert State(key[v], v) in heap;
    }
  }

  /** The loop over the edges of the node just popped with key `ns`. */
  method RelaxEdges(g: Graph, start: nat, ghost layer: seq<nat>, node: nat, ns: int,
                    dist0: seq<Dist>, prev0: seq<Option<nat>>, heap0: multiset<State>,
                    ghost key0: seq<int>, ghost via0: map<nat, Edge>, ghost todo: set<nat>)
    returns (dist: seq<Dist>, prev: seq<Option<nat>>, heap: multiset<State>,
             ghost key: seq<int>, ghost via: map<nat, Edge>)
    requires Layered(g, layer) && start < |g| && forall v: nat :: v < |g| ==> layer[start] <= layer[v]
    requires Explained(g, start, dist0, key0, prev0, via0, todo)
    requires node < |g| && node !in todo && ns >= 0 && key0[node] == ns
    requires HeapCovers(dist0, key0, heap0, todo, ns)
    requires forall u: nat :: u < |g| && u !in todo && u != node ==> Relaxed(g, dist0, key0, u, |g[u]|)
    ensures Explained(g, start, dist, key, prev, via, todo)
    ensures HeapCovers(dist, key, heap, todo, ns)
    ensures forall u: nat :: u < |g| && u !in todo ==> Relaxed(g, dist, key, u, |g[u]|)
    ensures Relaxed(g, dist0, key0, node, |g[node]|) ==> heap == heap0
  {
    dist, prev, heap, key, via := dist0, prev0, heap0, key0, via0;
    var cost := ns as real / NANOS;
    for i := 0 to |g[node]|
      invariant Explained(g, start, dist, key, prev, via, todo)
      invariant HeapCovers(dist, key, heap, todo, ns)
      invariant forall u: nat :: u < |g| && u !in todo && u != node ==> Relaxed(g, dist, key, u, |g[u]|)
      invariant key[node] == ns && Relaxed(g, dist, key, node, i)
      invariant Relaxed(g, dist0, key0, node, |g[node]|) ==> heap == heap0 && dist == dist0
    {
      var next, weight := g[node][i].to, g[node][i].weight;
      ghost var e := g[node][i];
      assert LayeredEdge(g, layer, node, e);
      assert Relaxed(g, dist0, key0, node, |g[node]|) ==> NoGain(dist0, ns, e);
      var nextCost := cost + weight;
      if dist[next].Infinite? || nextCost < dist[next].cost {
        KeyStep(dist, key, ns, e, nextCost);
        ghost var k := CostToNanos(nextCost);
        RelaxKeepsHeap(dist, key, heap, todo, ns, next, nextCost, k);
        RelaxKeepsExplained(g, start, dist, key, prev, via, todo, node, e, nextCost, k);
        RelaxKeepsRelaxed(g, dist, key, todo, node, i, next, nextCost, k);
        dist := dist[next := Finite(nextCost)];
        prev := prev[next := Some(node)];
        heap := heap + multiset{State(CostToNanos(nextCost), next)};
        key := key[next := k];
        via := via[next := e];
      }
    }
  }

  /** One round of the main loop for a popped entry that is not the end node's: a stale
      entry is skipped, any other settles its node. */
  method Serve(g: Graph, start: nat, ghost layer: seq<nat>, top: State,
               dist0: seq<Dist>, prev0: seq<Option<nat>>, heap0: multiset<State>, ghost heap: multiset<State>,
               ghost key0: seq<int>, ghost via0: map<nat, Edge>, ghost todo0: set<nat>, ghost cur: nat)
    returns (dist: seq<Dist>, prev: seq<Option<nat>>, heap1: multiset<State>,
             ghost key: seq<int>, ghost via: map<nat, Edge>, ghost todo: set<nat>)
    requires Layered(g, layer) && start < |g| && forall v: nat :: v < |g| ==> layer[start] <= layer[v]
    requires Searching(g, start, dist0, key0, prev0, via0, heap, todo0, cur)
    requires top in heap && heap0 == heap - multiset{top} && forall s :: s in heap ==> s.AtMost(top)
    ensures top.costNs >= 0 && Searching(g, start, dist, key, prev, via, heap1, todo, top.costNs)
    ensures todo0 - {top.node} <= todo
    ensures |todo| < |todo0| || (todo == todo0 && heap1 == heap0)
  {
    dist, prev, heap1, key, via, todo := dist0, prev0, heap0, key0, via0, todo0;
    var ns, node := top.costNs, top.node;
    PopKeepsHeap(dist, key, heap, todo, cur, top);
    var cost := ns as real / NANOS;
    if cost > dist[node].cost {
      return;
    }
    todo := todo - {node};
    if node !in todo0 {
      // A duplicate of an entry already served: every edge is relaxed and nothing is pushed.
      assert todo == todo0 && Relaxed(g, dist, key, node, |g[node]|);
    }
    dist, prev, heap1, key, via := RelaxEdges(g, start, layer, node, ns, dist, prev, heap1, key, via, todo);
  }

  lemma Initially(g: Graph, start: nat)
    requires start < |g|
    ensures var dist := seq(|g|, _ => Infinite)[start := Finite(0.0)];
            var key := seq(|g|, _ => 0);
            Searching(g, start, dist, key, seq(|g|, _ => None), map[], multiset{State(0, start)}, Nodes(|g|), 0)
  {
    var dist := seq(|g|, _ => Infinite)[start := Finite(0.0)];
    var key := seq(|g|, _ => 0);
    forall v: nat | Reached(dist, v) ensures v == start {
    }
    assert CostToNanos(0.0) == 0;
  }

  method Search(g: Graph, start: nat, end: nat, ghost layer: seq<nat>)
    returns (dist: seq<Dist>, prev: seq<Option<nat>>,
             ghost key: seq<int>, ghost via: map<nat, Edge>, ghost todo: set<nat>)
    requires Layered(g, layer) && start < |g| && end < |g| && start != end
    requires forall v: nat :: v < |g| ==> layer[start] <= layer[v]
    ensures Stopped(g, start, end, dist, key, prev, via, todo)
    ensures IsLeastDistance(g, start, end, dist)
  {
    hide Searching, Stopped, Layered, IsLeastDistance;
    Initially(g, start);
    dist := seq(|g|, _ => Infinite);
    prev := seq(|g|, _ => None);
    dist := dist[start := Finite(0.0)];
    key := seq(|g|, _ => 0);
    via := map[];
    todo := Nodes(|g|);
    var heap := multiset{State(0, start)};
    ghost var cur: nat := 0;

    while heap != multiset{}
      invariant Searching(g, start, dist, key, prev, via, heap, todo, cur) && end in todo
      decreases |todo|, |heap|
    {
      var top, rest := Pop(heap);
      if top.node == end {
        PopEndStops(g, start, dist, key, prev, via, heap, todo, cur, top);
        DistanceIsLeast(g, layer, start, end, dist, key, prev, via, todo);
        return;
      }
      dist, prev, heap, key, via, todo := Serve(g, start, layer, top, dist, prev, rest, heap, key, via, todo, cur);
      cur := top.costNs;
    }
    EmptyHeapStops(g, start, end, dist, key, prev, via, heap, todo, cur);
    DistanceIsLeast(g, layer, start, end, dist, key, prev, via, todo);
  }

  // ---------------------------------------------------------------- what the search found

  ghost predicate IsCheapest(g: Graph, start: nat, path: seq<Edge>, end: nat)
    requires start < |g|
  {
    IsPath(g, start, path, end) && forall other :: IsPath(g, start, other, end) ==> Nanos(path) <= Nanos(other)
  }

  /** `nodes` are those that the path enters, in order. */
  ghost predicate Traces(path: seq<Edge>, nodes: seq<nat>) {
    |nodes| == |path| && forall i :: 0 <= i < |path| ==> nodes[i] == path[i].to
  }

  /** The end's distance is finite exactly when there is a path, and truncates to the least sum
      of truncated weights over all paths. */
  ghost predicate IsLeastDistance(g: Graph, start: nat, end: nat, dist: seq<Dist>)
    requires start < |g| && end < |g|
  {
    && |dist| == |g|
    && (dist[end].Finite? <==> exists path :: IsPath(g, start, path, end))
    && (dist[end].Finite? ==>
          exists path :: IsCheapest(g, start, path, end) && CostToNanos(dist[end].cost) == Nanos(path))
  }

  /** Every key is the sum along some path. */
  lemma {:induction false} KeyHasPath(g: Graph, layer: seq<nat>, start: nat, end: nat, dist: seq<Dist>,
                                      key: seq<int>, prev: seq<Option<nat>>, via: map<nat, Edge>,
                                      todo: set<nat>, v: nat)
    returns (path: seq<Edge>)
    requires Layered(g, layer) && Stopped(g, start, end, dist, key, prev, via, todo) && Reached(dist, v)
    ensures IsPath(g, start, path, v) && Nanos(path) == key[v]
    decreases layer[v]
  {
    if v == start {
      path := [];
      assert CostToNanos(0.0) == 0;
    } else {
      var u, e := prev[v].value, via[v];
      assert GaveDistance(g, dist, key, u, e, v) && LayeredEdge(g, layer, u, e) && Reached(dist, u);
      var front := KeyHasPath(g, layer, start, end, dist, key, prev, via, todo, u);
      NanosOfSum(key[u], e.weight);
      PathExtends(g, start, front, u, e);
      path := front + [e];
    }
  }

  lemma DistanceIsLeast(g: Graph, layer: seq<nat>, start: nat, end: nat, dist: seq<Dist>,
                        key: seq<int>, prev: seq<Option<nat>>, via: map<nat, Edge>, todo: set<nat>)
    requires Layered(g, layer) && Stopped(g, start, end, dist, key, prev, via, todo)
    ensures IsLeastDistance(g, start, end, dist)
  {
    forall path | IsPath(g, start, path, end) ensures Reached(dist, end) && key[end] <= Nanos(path) {
      assert CostToNanos(0.0) == 0;
      NoCheaperPath(g, layer, start, end, dist, key, prev, via, todo, start, path);
    }
    if Reached(dist, end) {
      var path := KeyHasPath(g, layer, start, end, dist, key, prev, via, todo, end);
      assert IsCheapest(g, start, path, end);
    }
  }

  /** No path from a node `u` to the end is cheaper than the end's key suggests. */
  lemma {:induction false} NoCheaperPath(g: Graph, layer: seq<nat>, start: nat, end: nat, dist: seq<Dist>,
                                         key: seq<int>, prev: seq<Option<nat>>, via: map<nat, Edge>,
                                         todo: set<nat>, u: nat, path: seq<Edge>)
    requires Layered(g, layer) && Stopped(g, start, end, dist, key, prev, via, todo)
    requires u < |g| && Reached(dist, u) && IsPath(g, u, path, end)
    ensures Reached(dist, end) && key[end] <= key[u] + Nanos(path)
    decreases path
  {
    PathLayers(g, layer, u, path, end);
    if u !in todo {
      assert path != [];
      var e := path[0];
      assert LayeredEdge(g, layer, u, e);
      assert NoGain(dist, key[u], e);
      NanosOfSum(key[u], e.weight);
      NanosMonotone(dist[e.to].cost, key[u] as real / NANOS + e.weight);
      NoCheaperPath(g, layer, start, end, dist, key, prev, via, todo, e.to, path[1..]);
    }
  }

  /** Walking `prev` back from the end node gives the nodes of a cheapest path, in order. */
  method FollowPrev(g: Graph, ghost layer: seq<nat>, ghost start: nat, end: nat, ghost dist: seq<Dist>,
                    ghost key: seq<int>, prev: seq<Option<nat>>, ghost via: map<nat, Edge>, ghost todo: set<nat>)
    returns (pathNodes: seq<nat>, ghost path: seq<Edge>)
    requires Layered(g, layer) && Stopped(g, start, end, dist, key, prev, via, todo)
    requires Reached(dist, end)
    ensures IsPath(g, start, path, end) && Nanos(path) == key[end]
    ensures Traces(path, pathNodes) && IsCheapest(g, start, path, end)
    ensures exists p :: IsCheapest(g, start, p, end) && Traces(p, pathNodes)
  {
    var backwards: seq<nat> := [];
    var cur: nat := end;
    path := [];
    while prev[cur].Some?
      invariant cur < |g| && Reached(dist, cur)
      invariant IsPath(g, cur, path, end) && key[cur] + Nanos(path) == key[end]
      invariant |backwards| == |path|
      invariant forall i :: 0 <= i < |path| ==> backwards[|path| - 1 - i] == path[i].to
      decreases layer[cur]
    {
      var p := prev[cur].value;
      ghost var e := via[cur];
      assert GaveDistance(g, dist, key, p, e, cur);
      assert LayeredEdge(g, layer, p, e);
      assert Reached(dist, p);
      NanosOfSum(key[p], e.weight);
      assert ([e] + path)[1..] == path;
      backwards := backwards + [cur];
      path := [e] + path;
      cur := p;
    }
    pathNodes := seq(|backwards|, i requires 0 <= i < |backwards| => backwards[|backwards| - 1 - i]);
    forall other | IsPath(g, start, other, end) ensures Nanos(path) <= Nanos(other) {
      NoCheaperPath(g, layer, start, end, dist, key, prev, via, todo, start, other);
    }
  }
}
