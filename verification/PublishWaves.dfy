/** The publish waves of a release window: a repository is uploaded once every floor it pins,
    of those the window publishes, is live. */
module PublishWaves {
  import opened Results
  import opened Graphs

  /** The unmet floors that this window itself publishes. */
  function InWindow(names: set<Id>, unmet: map<Id, set<Id>>): (g: Graph)
    ensures Closed(g) && g.Keys == names
  {
    map n | n in names :: (if n in unmet then unmet[n] else {}) * names
  }

  /** The waves number the layers from 1. */
  ghost predicate Numbers(waves: seq<set<Id>>, rank: map<Id, nat>) {
    && (forall k, n | 0 <= k < |waves| && n in waves[k] :: n in rank && rank[n] == k + 1)
    && (forall n | n in rank :: 1 <= rank[n] <= |waves| && n in waves[rank[n] - 1])
  }

  /** The repositories that wait, directly or through others, on a cycle of unmet floors. */
  ghost function Cyclic(g: Graph): set<Id> {
    set n | n in g && ReachesCycle(g, n)
  }

  /** What the upload loop keeps: the waves so far are the first layers, and none is empty. */
  ghost predicate WavesSoFar(g: Graph, waves: seq<set<Id>>, rank: map<Id, nat>) {
    Layered(g, rank, |waves| + 1) && Numbers(waves, rank) && forall k | 0 <= k < |waves| :: waves[k] != {}
  }

  /** Uploads wave after wave; what is left when nothing is ready is exactly what waits on a cycle. */
  method Waves(names: set<Id>, unmet: map<Id, set<Id>>)
    returns (waves: seq<set<Id>>, cycle: Option<set<Id>>, ghost rank: map<Id, nat>)
    ensures WavesSoFar(InWindow(names, unmet), waves, rank)
    ensures rank.Keys == names - Cyclic(InWindow(names, unmet))
    ensures cycle == if Cyclic(InWindow(names, unmet)) == {} then None else Some(Cyclic(InWindow(names, unmet)))
  {
    var g := InWindow(names, unmet);
    var placed: set<Id> := {};
    waves, cycle, rank := [], None, map[];
    while |placed| < |names|
      invariant placed == rank.Keys && WavesSoFar(g, waves, rank)
      decreases names - placed
    {
      var ready := set n | n in names - placed && g[n] <= placed;
      assert ready == Peelable(g, placed);
      if ready == {} {
        cycle := Some(names - placed);
        WavesStuck(g, rank, |waves| + 1);
        return;
      }
      rank := WaveRound(g, waves, rank, ready);
      waves := waves + [ready];
      placed := placed + ready;
    }
    WavesDone(g, rank, |waves| + 1);
  }

  lemma WaveRound(g: Graph, waves: seq<set<Id>>, rank: map<Id, nat>, ready: set<Id>) returns (next: map<Id, nat>)
    requires WavesSoFar(g, waves, rank) && ready == Peelable(g, rank.Keys) && ready != {}
    ensures next.Keys == rank.Keys + ready && WavesSoFar(g, waves + [ready], next)
    ensures g.Keys - next.Keys < g.Keys - rank.Keys
  {
    LayeredRound(g, rank, |waves| + 1);
    next := AddLayer(g, rank, |waves| + 1);
    NextWave(waves, rank, ready, next);
    var n :| n in ready;
    assert n in g.Keys - rank.Keys;
  }

  lemma LeftAreCyclic(g: Graph, rank: map<Id, nat>, top: nat)
    requires Closed(g) && FullyLayered(g, rank, top)
    ensures g.Keys - rank.Keys == Cyclic(g) && rank.Keys == g.Keys - Cyclic(g)
  {
    UnlayeredReachCycles(g, rank, top);
  }

  lemma WavesStuck(g: Graph, rank: map<Id, nat>, top: nat)
    requires Closed(g) && FullyLayered(g, rank, top) && |rank.Keys| < |g.Keys|
    ensures g.Keys - rank.Keys == Cyclic(g) && rank.Keys == g.Keys - Cyclic(g) && Cyclic(g) != {}
  {
    Smaller(rank.Keys, g.Keys);
    LeftAreCyclic(g, rank, top);
  }

  lemma WavesDone(g: Graph, rank: map<Id, nat>, top: nat)
    requires Closed(g) && Layered(g, rank, top) && |rank.Keys| >= |g.Keys|
    ensures Cyclic(g) == {} && rank.Keys == g.Keys - Cyclic(g)
  {
    SameSize(rank.Keys, g.Keys);
    LeftAreCyclic(g, rank, top);
  }

  lemma NextWave(waves: seq<set<Id>>, rank: map<Id, nat>, ready: set<Id>, next: map<Id, nat>)
    requires Numbers(waves, rank) && ready !! rank.Keys && next.Keys == rank.Keys + ready
    requires forall n | n in next :: next[n] == if n in rank then rank[n] else |waves| + 1
    ensures Numbers(waves + [ready], next)
  {
  }

  lemma Smaller(a: set<Id>, b: set<Id>)
    requires a <= b && |a| < |b|
    ensures b - a != {}
  {
    assert b == a + (b - a);
    assert |b| == |a| + |b - a|;
  }

  lemma SameSize(a: set<Id>, b: set<Id>)
    requires a <= b && |a| >= |b|
    ensures a == b
  {
    assert b == a + (b - a);
    assert |b| == |a| + |b - a|;
  }

  // ---- What the waves are ---------------------------------------------------

  /** A repository's wave comes right after the latest wave among its floors. */
  lemma WaveAfterLatestFloor(g: Graph, rank: map<Id, nat>, top: nat, n: Id)
    requires Layered(g, rank, top) && n in rank
    ensures forall d | d in g[n] :: d in rank && rank[d] < rank[n]
    ensures if g[n] == {} then rank[n] == 1 else exists d :: d in g[n] && rank[d] == rank[n] - 1
  {
    assert Rests(g, rank, n);
    if g[n] != {} {
      var d :| d in g[n];
      assert rank[d] >= 1;
    }
  }

  /** No numbering that puts every floor before its dependent starts a repository earlier. */
  lemma {:induction false} WavesAreLeast(g: Graph, rank: map<Id, nat>, top: nat, other: map<Id, nat>, n: Id)
    requires Layered(g, rank, top) && n in rank
    requires rank.Keys <= other.Keys && Ranked(g, other) && forall m | m in rank :: other[m] >= 1
    ensures rank[n] <= other[n]
    decreases rank[n]
  {
    WaveAfterLatestFloor(g, rank, top, n);
    if rank[n] > 1 {
      var d :| d in g[n] && rank[d] == rank[n] - 1;
      WavesAreLeast(g, rank, top, other, d);
    }
  }

  /** A repository's wave is the length of its longest chain of unmet floors. */
  lemma {:induction false} WaveIsLongestChain(g: Graph, rank: map<Id, nat>, top: nat, n: Id) returns (chain: seq<Id>)
    requires Layered(g, rank, top) && n in rank
    ensures IsPath(g, chain) && chain[0] == n && |chain| == rank[n]
    ensures forall p | IsPath(g, p) && p[0] == n :: |p| <= rank[n]
    decreases rank[n]
  {
    WaveAfterLatestFloor(g, rank, top, n);
    if g[n] == {} {
      chain := [n];
    } else {
      var d :| d in g[n] && rank[d] == rank[n] - 1;
      var rest := WaveIsLongestChain(g, rank, top, d);
      chain := [n] + rest;
      assert forall i | 0 < i < |chain| :: chain[i] == rest[i - 1];
    }
    forall p | IsPath(g, p) && p[0] == n
      ensures |p| <= rank[n]
    {
      RankFallsAlong(g, rank, p, 0, |p| - 1);
      assert rank[p[|p| - 1]] >= 1;
    }
  }
}
