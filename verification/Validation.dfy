/** Submit-time validation: duplicate ids, unknown references and, by Kahn's algorithm,
    dependency cycles. */
module Validation {
  import opened Results
  import opened Graphs
  import opened Compositions

  datatype ValidationError =
    | DuplicateIds(ids: set<Id>)
    | UnknownRefs(node: Id, unknown: set<Id>)
    | DependencyCycle(involving: set<Id>)

  /** Who among these nodes depends directly on d. */
  function WaitersAmong(g: Graph, among: set<Id>, d: Id): set<Id>
    requires among <= g.Keys
  {
    set n | n in among && d in g[n]
  }

  lemma OneMoreWaiter(g: Graph, todo: set<Id>, nid: Id)
    requires nid in todo && todo <= g.Keys
    ensures forall d :: WaitersAmong(g, g.Keys - (todo - {nid}), d)
                        == WaitersAmong(g, g.Keys - todo, d) + if d in g[nid] then {nid} else {}
  {
  }

  /** nid joins the dependents of each of its dependencies. */
  method AddDependent(g: Graph, dependents: Graph, nid: Id) returns (next: Graph)
    requires Closed(g) && nid in g && dependents.Keys == g.Keys
    ensures next.Keys == g.Keys
    ensures forall d | d in g :: next[d] == dependents[d] + if d in g[nid] then {nid} else {}
  {
    next := dependents;
    var ds := g[nid];
    while ds != {}
      invariant ds <= g[nid] && next.Keys == g.Keys
      invariant forall d | d in g :: next[d] == dependents[d] + if d in g[nid] - ds then {nid} else {}
    {
      var d :| d in ds;
      next := next[d := next[d] + {nid}];
      ds := ds - {d};
    }
  }

  /** The reverse map, built edge by edge; a node nothing depends on gets an empty entry. */
  method ReverseOf(g: Graph) returns (dependents: Graph)
    requires Closed(g)
    ensures dependents == Reverse(g)
  {
    dependents := map d | d in g :: {};
    var todo := g.Keys;
    while todo != {}
      invariant todo <= g.Keys && dependents.Keys == g.Keys
      invariant forall d | d in g :: dependents[d] == WaitersAmong(g, g.Keys - todo, d)
    {
      var nid :| nid in todo;
      dependents := AddDependent(g, dependents, nid);
      OneMoreWaiter(g, todo, nid);
      todo := todo - {nid};
    }
    assert g.Keys - todo == g.Keys;
    assert forall d | d in g :: Reverse(g)[d] == WaitersAmong(g, g.Keys, d);
  }

  /** No node twice, and every node after all of its dependencies. */
  ghost predicate PeelOrder(g: Graph, order: seq<Id>) {
    && Distinct(order)
    && (forall i | 0 <= i < |order| :: order[i] in g && forall d | d in g[order[i]] :: d in order[..i])
  }

  lemma PeelOrderRanks(g: Graph, order: seq<Id>)
    requires PeelOrder(g, order)
    ensures exists rank: map<Id, nat> :: rank.Keys == Elements(order) && Ranked(g, rank)
  {
    var rank := map n | n in Elements(order) :: Position(order, n);
    forall n, d | n in rank && n in g && d in g[n]
      ensures d in rank && rank[d] < rank[n]
    {
      assert order[rank[n]] == n;
      var j :| 0 <= j < rank[n] && order[j] == d;
      assert order[rank[d]] == d;
    }
    assert Ranked(g, rank);
  }

  ghost function Position(order: seq<Id>, n: Id): (i: nat)
    requires n in Elements(order)
    ensures i < |order| && order[i] == n
  {
    var i :| 0 <= i < |order| && order[i] == n; i
  }

  lemma {:induction false} DistinctCount(s: seq<Id>)
    requires forall i, j | 0 <= i < j < |s| :: s[i] != s[j]
    ensures |Elements(s)| == |s|
  {
    if s != [] {
      var front := s[..|s| - 1];
      DistinctCount(front);
      assert Elements(s) == Elements(front) + {s[|s| - 1]};
    }
  }

  lemma SubsetOfSameSize(a: set<Id>, b: set<Id>)
    requires a <= b
    ensures |a| == |b| <==> a == b
  {
    if a != b {
      assert b == a + (b - a);
      assert |b| == |a| + |b - a|;
    }
  }

  /** Between two rounds of Kahn's loop: `order` is peeled, `queue` waits to be. */
  ghost predicate PeelState(g: Graph, order: seq<Id>, queue: seq<Id>, remaining: Graph) {
    && PeelOrder(g, order + queue)
    && remaining.Keys == g.Keys
    && (forall n | n in g :: remaining[n] == g[n] - Elements(order))
    && (forall n | n in g :: remaining[n] == {} <==> n in Elements(order) + Elements(queue))
  }

  lemma EnqueueKeepsOrder(g: Graph, order: seq<Id>, queue: seq<Id>, child: Id)
    requires PeelOrder(g, order + queue)
    requires child in g && child !in Elements(order) + Elements(queue) && g[child] <= Elements(order)
    ensures PeelOrder(g, order + (queue + [child]))
    ensures Elements(queue + [child]) == Elements(queue) + {child}
  {
    var a, b := order + queue, order + (queue + [child]);
    assert b == a + [child];
    assert child !in a;
    ElementsSnoc(queue, child);
    forall i, d | 0 <= i < |b| && d in g[b[i]]
      ensures d in b[..i]
    {
      if i < |a| {
        assert b[i] == a[i] && a[..i] == b[..i];
      } else {
        assert d in order && b[..i] == order + queue;
      }
    }
  }

  lemma HeadNotPeeled(g: Graph, order: seq<Id>, queue: seq<Id>)
    requires PeelOrder(g, order + queue) && queue != []
    ensures queue[0] in g && queue[0] !in Elements(order)
    ensures Elements(order + [queue[0]]) == Elements(order) + {queue[0]}
    ensures Elements(queue) == {queue[0]} + Elements(queue[1..])
    ensures order + queue == order + [queue[0]] + queue[1..]
  {
    var all := order + queue;
    assert all[|order|] == queue[0];
    assert forall i | 0 <= i < |order| :: all[i] == order[i];
    ElementsSnoc(order, queue[0]);
    ElementsUncons(queue);
  }

  method InitialQueue(g: Graph) returns (queue: seq<Id>)
    requires Closed(g)
    ensures PeelState(g, [], queue, g)
  {
    queue := [];
    var todo := g.Keys;
    while todo != {}
      invariant todo <= g.Keys
      invariant forall n | n in g :: n in Elements(queue) <==> n !in todo && g[n] == {}
      invariant PeelOrder(g, queue)
    {
      var nid :| nid in todo;
      if g[nid] == {} {
        EnqueueKeepsOrder(g, [], queue, nid);
        assert [] + queue == queue && [] + (queue + [nid]) == queue + [nid];
        queue := queue + [nid];
      }
      todo := todo - {nid};
    }
    assert [] + queue == queue;
  }

  /** Half-way through a round: `nid` is still to be struck from `children`. */
  ghost predicate Striking(g: Graph, remaining: Graph, children: set<Id>, nid: Id, done: set<Id>, enqueued: set<Id>) {
    && remaining.Keys == g.Keys && nid !in done && children <= g.Keys
    && (forall n | n in children :: nid in g[n])
    && (forall n | n in g :: remaining[n] == if n in children then g[n] - done else g[n] - done - {nid})
    && (forall n | n in g :: remaining[n] == {} <==> n in done || n == nid || n in enqueued)
  }

  lemma StrikeChild(g: Graph, remaining: Graph, children: set<Id>, nid: Id, done: set<Id>, enqueued: set<Id>, child: Id)
    requires Striking(g, remaining, children, nid, done, enqueued) && child in children
    ensures var left := remaining[child] - {nid};
            && left == g[child] - done - {nid} && child !in done && child != nid && child !in enqueued
            && Striking(g, remaining[child := left], children - {child}, nid, done,
                        if left == {} then enqueued + {child} else enqueued)
  {
    assert nid in remaining[child];
  }

  /** The head of the queue is struck from every node that waits for it. */
  method StrikeHead(g: Graph, dependents: set<Id>, order: seq<Id>, nid: Id, rest: seq<Id>, remaining: Graph,
                    ghost done: set<Id>)
    returns (queue': seq<Id>, remaining': Graph)
    requires Elements(order) == done + {nid} && PeelOrder(g, order + rest)
    requires Striking(g, remaining, dependents, nid, done, Elements(rest))
    ensures PeelState(g, order, queue', remaining')
  {
    queue', remaining' := rest, remaining;
    ghost var enqueued := Elements(rest);
    var children := dependents;
    while children != {}
      invariant children <= dependents
      invariant PeelOrder(g, order + queue') && enqueued == Elements(queue')
      invariant Striking(g, remaining', children, nid, done, enqueued)
    {
      var child :| child in children;
      var left := remaining'[child] - {nid};
      StrikeChild(g, remaining', children, nid, done, enqueued, child);
      remaining' := remaining'[child := left];
      children := children - {child};
      if left == {} {
        EnqueueKeepsOrder(g, order, queue', child);
        queue' := queue' + [child];
        enqueued := enqueued + {child};
      }
    }
  }

  /** One round: the next node in the queue is peeled. */
  method PeelHead(g: Graph, dependents: Graph, order: seq<Id>, queue: seq<Id>, remaining: Graph)
    returns (order': seq<Id>, queue': seq<Id>, remaining': Graph)
    requires Closed(g) && dependents == Reverse(g)
    requires PeelState(g, order, queue, remaining) && queue != []
    ensures PeelState(g, order', queue', remaining') && order' == order + [queue[0]]
  {
    HeadNotPeeled(g, order, queue);
    var nid := queue[0];
    order' := order + [nid];
    queue', remaining' := StrikeHead(g, dependents[nid], order', nid, queue[1..], remaining, Elements(order));
  }

  /** Kahn's loop. Peeled nodes come out in an order that respects dependencies, each once;
      what is left with unmet dependencies is exactly what reaches a cycle. */
  method PeelLoop(g: Graph) returns (order: seq<Id>, remaining: Graph)
    requires Closed(g)
    ensures PeelOrder(g, order)
    ensures remaining.Keys == g.Keys
    ensures forall n | n in g :: remaining[n] == {} <==> n in Elements(order)
    ensures forall n | n in g :: remaining[n] != {} <==> ReachesCycle(g, n)
  {
    var queue := InitialQueue(g);
    remaining := g;
    var dependents := ReverseOf(g);
    order := [];
    while queue != []
      invariant PeelState(g, order, queue, remaining)
      decreases g.Keys - Elements(order)
    {
      HeadNotPeeled(g, order, queue);
      order, queue, remaining := PeelHead(g, dependents, order, queue, remaining);
    }
    assert order + queue == order;
    LeftoversReachCycles(g, order, remaining);
  }

  lemma LeftoversReachCycles(g: Graph, order: seq<Id>, remaining: Graph)
    requires PeelState(g, order, [], remaining) && Closed(g)
    ensures forall n | n in g :: remaining[n] != {} <==> ReachesCycle(g, n)
  {
    assert order + [] == order;
    PeelOrderRanks(g, order);
    var rank: map<Id, nat> :| rank.Keys == Elements(order) && Ranked(g, rank);
    var stuck := set n | n in g && remaining[n] != {};
    forall n | n in stuck
      ensures g[n] * stuck != {}
    {
      var d :| d in remaining[n];
      assert d in g[n] && d !in Elements(order);
      assert d in g[n] * stuck;
    }
    forall n | n in g
      ensures remaining[n] != {} <==> ReachesCycle(g, n)
    {
      if n in Elements(order) { RankedReachesNoCycle(g, rank, n); } else { StuckReachesCycle(g, stuck, n); }
    }
  }

  lemma PeeledAllIffAcyclic(g: Graph, order: seq<Id>, remaining: Graph)
    requires PeelOrder(g, order) && remaining.Keys == g.Keys
    requires forall n | n in g :: remaining[n] == {} <==> n in Elements(order)
    requires forall n | n in g :: remaining[n] != {} <==> ReachesCycle(g, n)
    ensures |order| == |g| <==> Acyclic(g)
    ensures Acyclic(g) <==> forall n | n in g :: remaining[n] == {}
  {
    AcyclicIffNoLasso(g);
    DistinctCount(order);
    SubsetOfSameSize(Elements(order), g.Keys);
    if Acyclic(g) {
      assert forall n | n in g :: n in Elements(order);
    } else {
      var n :| n in g && ReachesCycle(g, n);
      assert n !in Elements(order) && remaining[n] != {};
    }
  }

  /** The first node, in listing order, that names a node outside the composition. */
  ghost predicate FirstUnknown(nodes: seq<Node>, id: Id, unknown: set<Id>) {
    exists i ::
      && 0 <= i < |nodes| && nodes[i].id == id
      && unknown == NodeDependencies(nodes[i]) - IdsOf(nodes) && unknown != {}
      && forall j | 0 <= j < i :: NodeDependencies(nodes[j]) <= IdsOf(nodes)
  }

  lemma RepeatedStep(nodes: seq<Node>, i: nat)
    requires i < |nodes|
    ensures forall id :: Repeated(nodes[..i + 1], id) <==>
                         Repeated(nodes[..i], id) || (id == nodes[i].id && id in IdsOf(nodes[..i]))
  {
    var a, b := nodes[..i], nodes[..i + 1];
    assert b == a + [nodes[i]];
    forall id | Repeated(a, id)
      ensures Repeated(b, id)
    {
      var x, y :| 0 <= x < y < |a| && a[x].id == id && a[y].id == id;
      assert b[x].id == id && b[y].id == id;
    }
    if nodes[i].id in IdsOf(a) {
      var x :| 0 <= x < |a| && a[x].id == nodes[i].id;
      assert b[x].id == nodes[i].id && b[i].id == nodes[i].id;
    }
  }

  method DuplicatesOf(nodes: seq<Node>) returns (known: set<Id>, dups: set<Id>)
    ensures known == IdsOf(nodes)
    ensures forall id :: id in dups <==> Repeated(nodes, id)
  {
    var counts: map<Id, nat> := map[];
    for i := 0 to |nodes|
      invariant counts.Keys == IdsOf(nodes[..i])
      invariant forall id | id in counts :: 1 <= counts[id]
      invariant forall id :: Repeated(nodes[..i], id) <==> id in counts && counts[id] > 1
    {
      var id := nodes[i].id;
      RepeatedStep(nodes, i);
      counts := counts[id := if id in counts then counts[id] + 1 else 1];
    }
    assert nodes[..|nodes|] == nodes;
    known, dups := counts.Keys, set id | id in counts && counts[id] > 1;
  }

  /** The dependency map, or the first node that names an unknown one. */
  method DeriveGraph(nodes: seq<Node>, known: set<Id>) returns (r: Result<Graph, ValidationError>)
    requires known == IdsOf(nodes)
    ensures r.Ok? <==> KnownRefs(nodes)
    ensures r.Ok? ==> r.value == GraphOf(nodes)
    ensures r.Err? ==> r.error.UnknownRefs? && FirstUnknown(nodes, r.error.node, r.error.unknown)
  {
    var deps: Graph := map[];
    for i := 0 to |nodes|
      invariant deps == GraphOf(nodes[..i])
      invariant forall j | 0 <= j < i :: NodeDependencies(nodes[j]) <= known
    {
      var unknown := NodeDependencies(nodes[i]) - known;
      if unknown != {} {
        assert !(NodeDependencies(nodes[i]) <= known);
        return Err(UnknownRefs(nodes[i].id, unknown));
      }
      assert forall d | d in NodeDependencies(nodes[i]) :: d !in unknown;
      assert nodes[..i + 1][..i] == nodes[..i];
      deps := deps[nodes[i].id := NodeDependencies(nodes[i])];
    }
    assert nodes[..|nodes|] == nodes;
    return Ok(deps);
  }

  /** Accepts exactly the compositions with unique ids, known references and no dependency
      cycle, and names exactly the offenders otherwise. */
  method ValidateComposition(comp: Composition) returns (r: Result<Graph, ValidationError>)
    ensures r.Ok? <==> UniqueIds(comp.nodes) && KnownRefs(comp.nodes) && Acyclic(GraphOf(comp.nodes))
    ensures r.Ok? ==> r.value == GraphOf(comp.nodes)
    ensures r.Err? && r.error.DuplicateIds? ==>
              r.error.ids != {} && forall id :: id in r.error.ids <==> Repeated(comp.nodes, id)
    ensures r.Err? && r.error.UnknownRefs? ==>
              UniqueIds(comp.nodes) && FirstUnknown(comp.nodes, r.error.node, r.error.unknown)
    ensures r.Err? && r.error.DependencyCycle? ==>
              && UniqueIds(comp.nodes) && KnownRefs(comp.nodes) && r.error.involving != {}
              && forall id :: id in r.error.involving <==> id in IdsOf(comp.nodes) && ReachesCycle(GraphOf(comp.nodes), id)
  {
    var nodes := comp.nodes;
    var known, dups := DuplicatesOf(nodes);
    if dups != {} {
      return Err(DuplicateIds(dups));
    }
    assert UniqueIds(nodes) by {
      assert forall i | 0 <= i < |nodes| :: !Repeated(nodes, nodes[i].id);
    }
    var derived := DeriveGraph(nodes, known);
    if derived.Err? {
      return derived;
    }
    var deps := derived.value;
    GraphOfClosed(nodes);
    var order, remaining := PeelLoop(deps);
    PeeledAllIffAcyclic(deps, order, remaining);
    if |order| != |deps| {
      var cyclic := set n | n in deps && remaining[n] != {};
      ghost var n :| n in deps && remaining[n] != {};
      assert n in cyclic;
      return Err(DependencyCycle(cyclic));
    }
    return Ok(deps);
  }
}
