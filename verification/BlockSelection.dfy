/**
 Choosing which blocks a new server should serve: the window of blocks whose weakest block has
 the least throughput.
 */
module BlockSelection {
  import opened Common
  import opened ServerTypes

  // ---------------------------------------------------------------- throughput of a block

  function Contribution(info: ServerInfo, minState: ServerState): real {
    if info.state.Rank() >= minState.Rank() then info.throughput else 0.0
  }

  /** The throughput that `peers` contribute; `AnyOrder` says in which order does not matter. */
  ghost function Throughput(servers: map<PeerId, ServerInfo>, minState: ServerState, peers: set<PeerId>): real
    requires peers <= servers.Keys
  {
    if peers == {} then 0.0
    else
      var p :| p in peers;
      Contribution(servers[p], minState) + Throughput(servers, minState, peers - {p})
  }

  lemma {:induction false} AnyOrder(servers: map<PeerId, ServerInfo>, minState: ServerState, peers: set<PeerId>, p: PeerId)
    requires peers <= servers.Keys && p in peers
    ensures Throughput(servers, minState, peers) ==
              Contribution(servers[p], minState) + Throughput(servers, minState, peers - {p})
    decreases |peers|
  {
    var q :| q in peers && Throughput(servers, minState, peers) ==
                             Contribution(servers[q], minState) + Throughput(servers, minState, peers - {q});
    if p != q {
      AnyOrder(servers, minState, peers - {q}, p);
      AnyOrder(servers, minState, peers - {p}, q);
      assert peers - {p} - {q} == peers - {q} - {p};
    }
  }

  ghost function BlockThroughput(info: ModuleInfo, minState: ServerState): real {
    Throughput(info.servers, minState, info.servers.Keys)
  }

  /** One block: the servers are visited in the order of a hash map, which is any order. */
  method SumThroughputs(servers: map<PeerId, ServerInfo>, minState: ServerState) returns (sum: real)
    ensures sum == Throughput(servers, minState, servers.Keys)
  {
    sum := 0.0;
    var rest := servers.Keys;
    while rest != {}
      invariant rest <= servers.Keys
      invariant sum + Throughput(servers, minState, rest) == Throughput(servers, minState, servers.Keys)
      decreases rest
    {
      var p :| p in rest;
      AnyOrder(servers, minState, rest, p);
      if servers[p].state.Rank() >= minState.Rank() {
        sum := sum + servers[p].throughput;
      }
      rest := rest - {p};
    }
  }

  /** Joining and online servers count with all of their throughput, offline ones do not. */
  lemma OneMoreServer(info: ModuleInfo, p: PeerId, server: ServerInfo)
    requires p !in info.servers
    ensures BlockThroughput(ModuleInfo(info.uidNumber, map[]), Joining) == 0.0
    ensures BlockThroughput(info.(servers := info.servers[p := server]), Joining) ==
              BlockThroughput(info, Joining) + if server.state == Offline then 0.0 else server.throughput
  {
    var more := info.servers[p := server];
    AnyOrder(more, Joining, more.Keys, p);
    assert more.Keys - {p} == info.servers.Keys;
    SameServers(more, info.servers, Joining, info.servers.Keys);
  }

  lemma {:induction false} SameServers(a: map<PeerId, ServerInfo>, b: map<PeerId, ServerInfo>, minState: ServerState,
                                       peers: set<PeerId>)
    requires peers <= a.Keys && peers <= b.Keys && forall p :: p in peers ==> a[p] == b[p]
    ensures Throughput(a, minState, peers) == Throughput(b, minState, peers)
    decreases |peers|
  {
    if peers != {} {
      var p :| p in peers;
      AnyOrder(a, minState, peers, p);
      AnyOrder(b, minState, peers, p);
      SameServers(a, b, minState, peers - {p});
    }
  }

  method ComputeThroughputs(infos: seq<ModuleInfo>, minState: ServerState) returns (result: seq<real>)
    ensures |result| == |infos|
    ensures forall i :: 0 <= i < |infos| ==> result[i] == BlockThroughput(infos[i], minState)
  {
    result := [];
    for i := 0 to |infos|
      invariant |result| == i && forall j :: 0 <= j < i ==> result[j] == BlockThroughput(infos[j], minState)
    {
      var sum := SumThroughputs(infos[i].servers, minState);
      result := result + [sum];
    }
  }

  // ---------------------------------------------------------------- the window scan

  /** `least` is the least of the values at `start..start + n`. */
  ghost predicate IsWindowMin(values: seq<real>, start: nat, n: nat, least: real) {
    && start + n <= |values|
    && (forall j :: start <= j < start + n ==> least <= values[j])
    && exists j :: start <= j < start + n && values[j] == least
  }

  method WindowMin(values: seq<real>, start: nat, n: nat) returns (least: real)
    requires n > 0 && start + n <= |values|
    ensures IsWindowMin(values, start, n, least)
  {
    least := values[start];
    for j := start + 1 to start + n
      invariant IsWindowMin(values, start, j - start, least)
    {
      if values[j] < least {
        least := values[j];
      }
    }
  }

  /** `start` is the first of the windows before `k` with the least minimum, `best`. */
  ghost predicate BestOf(values: seq<real>, n: nat, k: nat, start: nat, best: real) {
    && start < k && k + n <= |values| + 1
    && IsWindowMin(values, start, n, best)
    && (forall s: nat :: s < k ==> NoBetter(values, n, s, start, best))
  }

  /** The minimum of window `s` is not below `best`, and above it when `s` is before `start`. */
  ghost predicate NoBetter(values: seq<real>, n: nat, s: nat, start: nat, best: real)
    requires s + n <= |values|
  {
    forall j :: s <= j < s + n ==> best <= values[j] && (s < start ==> best < values[j])
  }

  /** The scan over the windows.  The initial best is the largest finite value, `None` here: as
      every throughput is below it, the first window improves on it. */
  method BestWindow(values: seq<real>, n: nat) returns (start: nat, best: real)
    requires 0 < n <= |values|
    ensures BestOf(values, n, |values| - n + 1, start, best)
  {
    start := 0;
    var bestMin: Option<real> := None;
    for s := 0 to |values| - n + 1
      invariant bestMin.None? <==> s == 0
      invariant bestMin.Some? ==> BestOf(values, n, s, start, bestMin.value)
    {
      var least := WindowMin(values, s, n);
      ghost var start0, best0 := start, bestMin;
      if bestMin.None? || least < bestMin.value {
        bestMin, start := Some(least), s;
      }
      forall s': nat | s' < s + 1 ensures NoBetter(values, n, s', start, bestMin.value) {
        assert s' < s ==> NoBetter(values, n, s', start0, best0.value);
      }
    }
    best := bestMin.value;
  }

  /** The leftmost of the blocks with the least throughput. */
  function Weakest(values: seq<real>): (m: nat)
    requires values != []
    ensures m < |values|
    ensures forall j :: 0 <= j < |values| ==> values[m] <= values[j]
    ensures forall j :: 0 <= j < m ==> values[m] < values[j]
  {
    if |values| == 1 then 0
    else
      var m := Weakest(values[..|values| - 1]);
      if values[|values| - 1] < values[m] then |values| - 1 else m
  }

  /** The leftmost window of `n` blocks that contains the block `m`. */
  function FirstWindowWith(m: nat, n: nat): nat {
    if m + 1 >= n then m + 1 - n else 0
  }

  /** The scan finds the leftmost window that contains the leftmost weakest block. */
  lemma BestWindowIsFirstWithWeakest(values: seq<real>, n: nat, start: nat, best: real)
    requires 0 < n <= |values| && BestOf(values, n, |values| - n + 1, start, best)
    ensures start == FirstWindowWith(Weakest(values), n) && best == values[Weakest(values)]
    ensures start <= Weakest(values) < start + n
  {
    var m := Weakest(values);
    var first := FirstWindowWith(m, n);
    assert first <= m < first + n && first + n <= |values|;
    assert NoBetter(values, n, first, start, best);
    var j :| start <= j < start + n && values[j] == best;
    assert m <= j;
  }

  function Blocks(start: nat, n: nat): (r: seq<nat>)
    ensures |r| == n && forall i :: 0 <= i < n ==> r[i] == start + i
  {
    seq(n, i requires 0 <= i => start + i)
  }

  /** `values` are the throughputs of all blocks, with the joining and online servers. */
  ghost predicate AreThroughputs(infos: seq<ModuleInfo>, values: seq<real>) {
    |values| == |infos| && forall i :: 0 <= i < |infos| ==> values[i] == BlockThroughput(infos[i], Joining)
  }

  method ChooseBestBlocks(numBlocks: nat, infos: seq<ModuleInfo>) returns (blocks: Option<seq<nat>>, ghost values: seq<real>)
    ensures AreThroughputs(infos, values)
    ensures blocks.None? <==> infos == [] || numBlocks == 0
    ensures blocks.Some? && numBlocks > |infos| ==> blocks.value == Blocks(0, |infos|)
    ensures blocks.Some? && numBlocks <= |infos| ==>
              && blocks.value == Blocks(FirstWindowWith(Weakest(values), numBlocks), numBlocks)
              && Weakest(values) in blocks.value
  {
    var throughputs := ComputeThroughputs(infos, Joining);
    values := throughputs;
    if infos == [] || numBlocks == 0 {
      return None, values;
    }
    if numBlocks > |infos| {
      return Some(Blocks(0, |infos|)), values;
    }
    var start, best := BestWindow(throughputs, numBlocks);
    BestWindowIsFirstWithWeakest(values, numBlocks, start, best);
    assert Blocks(start, numBlocks)[Weakest(values) - start] == Weakest(values);
    blocks := Some(Blocks(start, numBlocks));
  }
}
