/** Dependency graphs: a node is mapped to the set of nodes it depends on.
    Shared by composition validation, by the run invariants and by the publish waves. */
module Graphs {

  type Id = string
  type Graph = map<Id, set<Id>>

  /** Every dependency is itself a node. */
  predicate Closed(g: Graph) {
    forall n | n in g :: g[n] <= g.Keys
  }

  /** Who depends on a node directly. */
  function Reverse(g: Graph): Graph {
    map d | d in g :: set n | n in g && d in g[n]
  }

  predicate Distinct(s: seq<Id>) {
    forall i, j | 0 <= i < j < |s| :: s[i] != s[j]
  }

  function Elements(s: seq<Id>): set<Id> {
    set i | 0 <= i < |s| :: s[i]
  }

  lemma DistinctSnoc(s: seq<Id>, x: Id)
    requires Distinct(s) && x !in Elements(s)
    ensures Distinct(s + [x]) && Elements(s + [x]) == Elements(s) + {x}
  {
    ElementsSnoc(s, x);
  }

  lemma ElementsSnoc(s: seq<Id>, x: Id)
    ensures Elements(s + [x]) == Elements(s) + {x}
  {
    var t := s + [x];
    assert t[|s|] == x && forall i | 0 <= i < |s| :: t[i] == s[i];
  }

  lemma ElementsUncons(s: seq<Id>)
    requires s != []
    ensures Elements(s) == {s[0]} + Elements(s[1..])
  {
    assert forall i | 0 < i < |s| :: s[i] == s[1..][i - 1];
  }

  lemma ElementsConcat(a: seq<Id>, b: seq<Id>)
    ensures Elements(a + b) == Elements(a) + Elements(b)
  {
    var c := a + b;
    assert forall i | 0 <= i < |b| :: c[|a| + i] == b[i];
    assert forall i | 0 <= i < |a| :: c[i] == a[i];
  }

  lemma EmptyOrInhabited(q: seq<Id>)
    ensures q == [] || exists x :: x in q
  {
    if q != [] { assert q[0] in q; }
  }

  /** A walk along dependency edges. */
  ghost predicate IsPath(g: Graph, p: seq<Id>) {
    && p != []
    && (forall i | 0 <= i < |p| :: p[i] in g)
    && (forall i | 0 <= i < |p| - 1 :: p[i + 1] in g[p[i]])
  }

  /** n depends on m, directly or through other nodes. */
  ghost predicate DependsOn(g: Graph, n: Id, m: Id) {
    exists p :: IsPath(g, p) && |p| >= 2 && p[0] == n && p[|p| - 1] == m
  }

  /** A walk that ends on a node it has already visited. */
  ghost predicate IsLasso(g: Graph, p: seq<Id>) {
    IsPath(g, p) && p[|p| - 1] in p[..|p| - 1]
  }

  ghost predicate ReachesCycle(g: Graph, n: Id) {
    exists p :: IsLasso(g, p) && p[0] == n
  }

  ghost predicate Acyclic(g: Graph) {
    forall n | n in g :: !DependsOn(g, n, n)
  }

  // ---- Walks -------------------------------------------------------------

  lemma EdgeIsDependency(g: Graph, n: Id, m: Id)
    requires n in g && m in g[n] && m in g
    ensures DependsOn(g, n, m)
  {
    assert IsPath(g, [n, m]);
  }

  lemma DependsOnStep(g: Graph, n: Id, m: Id, x: Id)
    requires n in g && m in g[n] && DependsOn(g, m, x)
    ensures DependsOn(g, n, x)
  {
    var p :| IsPath(g, p) && |p| >= 2 && p[0] == m && p[|p| - 1] == x;
    var q := [n] + p;
    assert forall i | 0 < i < |q| :: q[i] == p[i - 1];
    assert IsPath(g, q);
  }

  lemma DependsOnFirstStep(g: Graph, n: Id, x: Id) returns (m: Id)
    requires DependsOn(g, n, x)
    ensures n in g && x in g && m in g && m in g[n]
    ensures m == x || DependsOn(g, m, x)
  {
    var p :| IsPath(g, p) && |p| >= 2 && p[0] == n && p[|p| - 1] == x;
    m := p[1];
    if |p| > 2 {
      assert IsPath(g, p[1..]);
    }
  }

  /** The graph has no walk back to its start exactly when no walk repeats a node. */
  lemma AcyclicIffNoLasso(g: Graph)
    ensures Acyclic(g) <==> forall n | n in g :: !ReachesCycle(g, n)
  {
    if exists n :: n in g && ReachesCycle(g, n) {
      var n :| n in g && ReachesCycle(g, n);
      var p :| IsLasso(g, p) && p[0] == n;
      var i :| 0 <= i < |p| - 1 && p[i] == p[|p| - 1];
      assert IsPath(g, p[i..]);
      assert DependsOn(g, p[i], p[i]);
    }
    if !Acyclic(g) {
      var n :| n in g && DependsOn(g, n, n);
      var p :| IsPath(g, p) && |p| >= 2 && p[0] == n && p[|p| - 1] == n;
      assert p[..|p| - 1][0] == n;
      assert IsLasso(g, p);
    }
  }

  // ---- What peeling leaves behind ----------------------------------------

  /** Every member of `stuck` still waits for another member. */
  ghost predicate Stuck(g: Graph, stuck: set<Id>) {
    stuck <= g.Keys && forall n | n in stuck :: g[n] * stuck != {}
  }

  lemma {:induction false} StuckReachesCycle(g: Graph, stuck: set<Id>, n: Id)
    requires Stuck(g, stuck) && n in stuck
    ensures ReachesCycle(g, n)
  {
    WalkUntilRepeat(g, stuck, [n], stuck - {n});
  }

  lemma {:induction false} WalkUntilRepeat(g: Graph, stuck: set<Id>, p: seq<Id>, unseen: set<Id>)
    requires Stuck(g, stuck) && IsPath(g, p)
    requires forall i | 0 <= i < |p| :: p[i] in stuck
    requires unseen == set n | n in stuck && n !in p
    ensures ReachesCycle(g, p[0])
    decreases unseen
  {
    var d :| d in g[p[|p| - 1]] * stuck;
    var q := p + [d];
    assert IsPath(g, q);
    if d in p {
      assert q[..|q| - 1] == p;
      assert IsLasso(g, q) && q[0] == p[0];
    } else {
      assert d in unseen && d !in unseen - {d};
      WalkUntilRepeat(g, stuck, q, unseen - {d});
    }
  }

  /** Ranks fall along every edge that leaves a member of `rank`. */
  ghost predicate Ranked(g: Graph, rank: map<Id, nat>) {
    forall n, d | n in rank && n in g && d in g[n] :: d in rank && rank[d] < rank[n]
  }

  lemma {:induction false} RankFallsAlong(g: Graph, rank: map<Id, nat>, p: seq<Id>, i: nat, j: nat)
    requires Ranked(g, rank) && IsPath(g, p) && p[0] in rank && i <= j < |p|
    ensures p[i] in rank && p[j] in rank
    ensures rank[p[j]] + (j - i) <= rank[p[i]]
    decreases j
  {
    if j > 0 {
      RankFallsAlong(g, rank, p, if i < j then i else j - 1, j - 1);
      assert p[j - 1 + 1] in g[p[j - 1]];
    }
  }

  lemma RankedReachesNoCycle(g: Graph, rank: map<Id, nat>, n: Id)
    requires Ranked(g, rank) && n in rank
    ensures !ReachesCycle(g, n)
  {
    if ReachesCycle(g, n) {
      var p :| IsLasso(g, p) && p[0] == n;
      var i :| 0 <= i < |p| - 1 && p[i] == p[|p| - 1];
      RankFallsAlong(g, rank, p, i, |p| - 1);
    }
  }

  lemma RankedIsAcyclic(g: Graph, rank: map<Id, nat>)
    requires g.Keys <= rank.Keys && Ranked(g, rank)
    ensures Acyclic(g)
  {
    forall n | n in g
      ensures !ReachesCycle(g, n)
    {
      RankedReachesNoCycle(g, rank, n);
    }
    AcyclicIffNoLasso(g);
  }

  // ---- Layers ------------------------------------------------------------

  ghost function Peelable(g: Graph, placed: set<Id>): set<Id> {
    set n | n in g && n !in placed && g[n] <= placed
  }

  /** One round: the ready nodes join as a layer of their own. */
  ghost function AddLayer(g: Graph, placed: map<Id, nat>, layer: nat): (next: map<Id, nat>)
    ensures next.Keys == placed.Keys + Peelable(g, placed.Keys)
    ensures forall n | n in next :: next[n] == if n in placed then placed[n] else layer
  {
    placed + map n | n in Peelable(g, placed.Keys) :: layer
  }

  /** A placed node above the first layer rests on the layer below its own. */
  ghost predicate Rests(g: Graph, placed: map<Id, nat>, n: Id)
    requires n in g && n in placed
  {
    placed[n] > 1 ==> exists d :: d in g[n] && d in placed && placed[d] == placed[n] - 1
  }

  /** A node that is not placed waits for one that is not, or for one of the last layer. */
  ghost predicate Waits(g: Graph, placed: map<Id, nat>, layer: nat, n: Id)
    requires n in g
  {
    layer > 1 ==> exists d :: d in g[n] && (d !in placed || placed[d] == layer - 1)
  }

  /** What every round of peeling keeps: the placed nodes form complete layers below `layer`. */
  ghost predicate Layered(g: Graph, placed: map<Id, nat>, layer: nat) {
    && placed.Keys <= g.Keys
    && Ranked(g, placed)
    && (forall n | n in placed :: 1 <= placed[n] < layer)
    && (forall n {:trigger Rests(g, placed, n)} | n in placed :: Rests(g, placed, n))
    && (forall n {:trigger Waits(g, placed, layer, n)} | n in g && n !in placed :: Waits(g, placed, layer, n))
  }

  lemma RoundRests(g: Graph, placed: map<Id, nat>, layer: nat, n: Id)
    requires Layered(g, placed, layer) && layer >= 1
    requires n in placed || n in Peelable(g, placed.Keys)
    ensures Rests(g, AddLayer(g, placed, layer), n)
  {
    var next := AddLayer(g, placed, layer);
    if n in placed && placed[n] > 1 {
      assert Rests(g, placed, n);
      var d :| d in g[n] && d in placed && placed[d] == placed[n] - 1;
      assert d in next && next[d] == next[n] - 1;
    } else if n !in placed && layer > 1 {
      assert Waits(g, placed, layer, n);
      var d :| d in g[n] && (d !in placed || placed[d] == layer - 1);
      assert d in next && next[d] == next[n] - 1;
    }
  }

  lemma RoundRanked(g: Graph, placed: map<Id, nat>, layer: nat)
    requires Layered(g, placed, layer)
    ensures Ranked(g, AddLayer(g, placed, layer))
  {
    var next := AddLayer(g, placed, layer);
    forall n, d | n in next && n in g && d in g[n]
      ensures d in next && next[d] < next[n]
    {
      if n in placed {
        assert d in placed && placed[d] < placed[n];
      } else {
        assert d in placed && placed[d] < layer;
      }
    }
  }

  lemma LayeredRound(g: Graph, placed: map<Id, nat>, layer: nat)
    requires Layered(g, placed, layer) && layer >= 1
    ensures Layered(g, AddLayer(g, placed, layer), layer + 1)
  {
    var next := AddLayer(g, placed, layer);
    RoundRanked(g, placed, layer);
    forall n | n in next
      ensures 1 <= next[n] < layer + 1 && Rests(g, next, n)
    {
      RoundRests(g, placed, layer, n);
    }
    forall n | n in g && n !in next
      ensures Waits(g, next, layer + 1, n)
    {
      assert n !in Peelable(g, placed.Keys);
      var d :| d in g[n] && d !in placed;
      assert d !in next || next[d] == layer;
    }
  }

  /** Nothing more can be placed: the layers are complete. */
  ghost predicate FullyLayered(g: Graph, rank: map<Id, nat>, top: nat) {
    Layered(g, rank, top) && Peelable(g, rank.Keys) == {}
  }

  lemma {:induction false} LayersExist(g: Graph, placed: map<Id, nat>, layer: nat)
    returns (all: map<Id, nat>, top: nat)
    requires Layered(g, placed, layer) && layer >= 1
    ensures FullyLayered(g, all, top)
    decreases g.Keys - placed.Keys
  {
    if Peelable(g, placed.Keys) == {} {
      all, top := placed, layer;
    } else {
      var n :| n in Peelable(g, placed.Keys);
      assert n in g.Keys - placed.Keys;
      LayeredRound(g, placed, layer);
      all, top := LayersExist(g, AddLayer(g, placed, layer), layer + 1);
    }
  }

  /** The nodes left without a layer are exactly those that reach a cycle. */
  lemma UnlayeredReachCycles(g: Graph, rank: map<Id, nat>, top: nat)
    requires Closed(g) && FullyLayered(g, rank, top)
    ensures forall n | n in g :: n !in rank <==> ReachesCycle(g, n)
  {
    var stuck := g.Keys - rank.Keys;
    forall n | n in stuck
      ensures g[n] * stuck != {}
    {
      assert n !in Peelable(g, rank.Keys);
      var d :| d in g[n] && d !in rank;
      assert d in g[n] * stuck;
    }
    forall n | n in g
      ensures n !in rank <==> ReachesCycle(g, n)
    {
      if n in rank { RankedReachesNoCycle(g, rank, n); } else { StuckReachesCycle(g, stuck, n); }
    }
  }

  /** Some ranking of the whole graph, if there is one. */
  ghost function RankMap(g: Graph): map<Id, nat> {
    if exists r: map<Id, nat> :: g.Keys <= r.Keys && Ranked(g, r)
    then var r: map<Id, nat> :| g.Keys <= r.Keys && Ranked(g, r); r
    else map[]
  }

  ghost function Rank(g: Graph, n: Id): nat {
    if n in RankMap(g) then RankMap(g)[n] else 0
  }

  lemma AcyclicRanks(g: Graph)
    requires Closed(g) && Acyclic(g)
    ensures forall n, d | n in g && d in g[n] :: Rank(g, d) < Rank(g, n)
  {
    var rank, top := LayersExist(g, map[], 1);
    UnlayeredReachCycles(g, rank, top);
    AcyclicIffNoLasso(g);
    assert g.Keys <= rank.Keys && Ranked(g, rank);
    assert Ranked(g, RankMap(g));
  }
}
