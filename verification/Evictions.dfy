/** Choosing which idle workers give up their memory. Memory is in MB, as exact reals. */
module Evictions {
  import opened Results

  type Id = string

  /** A worker that could be evicted, and the GPU memory that would free. */
  datatype Resident = Resident(id: Id, footprint: real)

  const HOLLOW := 64.0
  const MARGIN := 1.25

  function Max(a: real, b: real): real { if a >= b then a else b }

  // ---- Eligibility -------------------------------------------------------

  /** Live residency when it can be measured, else the empirical peak. */
  function Footprint(live: Option<real>, peak: real): real {
    if live.Some? then live.value else peak
  }

  /** A measured-hollow worker frees nothing, and neither does an unmeasured one without a peak. */
  predicate Evictable(live: Option<real>, peak: real) {
    if live.Some? then live.value >= HOLLOW else peak > 0.0
  }

  /** What the monitor and the empirical store say about each instance. */
  datatype Gpu = Gpu(live: Id -> Option<real>, peak: Id -> real)

  predicate Eligible(spared: set<Id>, gpu: Gpu, id: Id) {
    id !in spared && Evictable(gpu.live(id), gpu.peak(id))
  }

  predicate DistinctIds(s: seq<Resident>) {
    forall i, j | 0 <= i < j < |s| :: s[i].id != s[j].id
  }

  /** These instances with their footprints. */
  function Residents(ids: seq<Id>, gpu: Gpu): seq<Resident> {
    seq(|ids|, i requires 0 <= i < |ids| => Resident(ids[i], Footprint(gpu.live(ids[i]), gpu.peak(ids[i]))))
  }

  lemma {:induction false} OnceAtMost(s: seq<Resident>, r: Resident)
    requires DistinctIds(s)
    ensures multiset(s)[r] <= 1
  {
    if s != [] {
      var front := s[..|s| - 1];
      assert s == front + [s[|s| - 1]];
      OnceAtMost(front, r);
      if r == s[|s| - 1] { assert r !in front; }
    }
  }

  lemma DistinctWithin(a: seq<Resident>, b: seq<Resident>)
    requires DistinctIds(a) && forall r | r in a :: r in b
    ensures multiset(a) <= multiset(b)
  {
    forall r
      ensures multiset(a)[r] <= multiset(b)[r]
    {
      OnceAtMost(a, r);
      if r in a { assert r in b; }
    }
  }

  lemma Twice(s: seq<Resident>, i: nat, j: nat)
    requires i < j < |s| && s[i] == s[j]
    ensures multiset(s)[s[i]] >= 2
  {
    assert s == s[..j] + [s[j]] + s[j + 1..];
    assert s[i] in s[..j];
  }

  lemma StaysDistinct(a: seq<Resident>, b: seq<Resident>)
    requires DistinctIds(a) && multiset(b) == multiset(a)
    ensures DistinctIds(b)
  {
    forall i, j | 0 <= i < j < |b|
      ensures b[i].id != b[j].id
    {
      if b[i] == b[j] {
        Twice(b, i, j);
        OnceAtMost(a, b[i]);
      } else {
        assert b[i] in multiset(a) && b[j] in multiset(a);
      }
    }
  }

  /** The eligible instances, in the order they were loaded. */
  method Candidates(loaded: seq<Id>, spared: set<Id>, gpu: Gpu) returns (candidates: seq<Resident>)
    ensures forall r :: r in candidates <==>
              r.id in loaded && Eligible(spared, gpu, r.id) && r.footprint == Footprint(gpu.live(r.id), gpu.peak(r.id))
    ensures forall r | r in candidates :: r.footprint > 0.0
    ensures |candidates| <= |loaded|
    ensures (forall i, j | 0 <= i < j < |loaded| :: loaded[i] != loaded[j]) ==> DistinctIds(candidates)
  {
    candidates := [];
    for i := 0 to |loaded|
      invariant |candidates| <= i
      invariant forall r :: r in candidates <==>
                  r.id in loaded[..i] && Eligible(spared, gpu, r.id)
                  && r.footprint == Footprint(gpu.live(r.id), gpu.peak(r.id))
      invariant (forall a, b | 0 <= a < b < |loaded| :: loaded[a] != loaded[b]) ==>
                  DistinctIds(candidates)
    {
      var id := loaded[i];
      assert loaded[..i + 1] == loaded[..i] + [id];
      if id !in spared {
        var live := gpu.live(id);
        if !(live.Some? && live.value < HOLLOW) {
          var footprint := if live.Some? then live.value else gpu.peak(id);
          if footprint > 0.0 {
            candidates := candidates + [Resident(id, footprint)];
          }
        }
      }
    }
    assert loaded[..|loaded|] == loaded;
  }

  // ---- Largest first -----------------------------------------------------

  predicate LargestFirst(s: seq<Resident>) {
    forall i, j | 0 <= i < j < |s| :: s[i].footprint >= s[j].footprint
  }

  function Total(s: seq<Resident>): real {
    if s == [] then 0.0 else Total(s[..|s| - 1]) + s[|s| - 1].footprint
  }

  /** Where a resident belongs in a largest-first sequence, after those of its own size. */
  method Place(s: seq<Resident>, r: Resident) returns (i: nat)
    requires LargestFirst(s)
    ensures i <= |s|
    ensures forall j | 0 <= j < i :: s[j].footprint >= r.footprint
    ensures forall j | i <= j < |s| :: s[j].footprint < r.footprint
  {
    i := 0;
    while i < |s| && s[i].footprint >= r.footprint
      invariant i <= |s| && forall j | 0 <= j < i :: s[j].footprint >= r.footprint
    {
      i := i + 1;
    }
  }

  method Insert(s: seq<Resident>, r: Resident) returns (t: seq<Resident>)
    requires LargestFirst(s)
    ensures multiset(t) == multiset(s) + multiset{r} && LargestFirst(t)
  {
    var k := Place(s, r);
    t := s[..k] + [r] + s[k..];
    assert s == s[..k] + s[k..];
    forall i, j | 0 <= i < j < |t|
      ensures t[i].footprint >= t[j].footprint
    {
      assert i < k ==> t[i] == s[i];
      assert i > k ==> t[i] == s[i - 1];
      assert j < k ==> t[j] == s[j];
      assert j > k ==> t[j] == s[j - 1];
    }
  }

  method SortLargestFirst(candidates: seq<Resident>) returns (sorted: seq<Resident>)
    ensures multiset(sorted) == multiset(candidates) && LargestFirst(sorted)
  {
    sorted := [];
    for i := 0 to |candidates|
      invariant multiset(sorted) == multiset(candidates[..i]) && LargestFirst(sorted)
    {
      assert candidates[..i + 1] == candidates[..i] + [candidates[i]];
      sorted := Insert(sorted, candidates[i]);
    }
    assert candidates[..|candidates|] == candidates;
  }

  /** The eviction loop's choice: residents in order until the freed total covers the target;
      without a target, all of them. */
  method Choose(sorted: seq<Resident>, target: Option<real>) returns (freed: real, evicted: nat)
    ensures evicted <= |sorted| && freed == Total(sorted[..evicted])
    ensures evicted == |sorted| || (target.Some? && freed >= target.value)
    ensures target.Some? ==> forall n | 1 <= n < evicted :: Total(sorted[..n]) < target.value
    ensures sorted != [] ==> evicted > 0
  {
    freed, evicted := 0.0, 0;
    while evicted < |sorted|
      invariant evicted <= |sorted| && freed == Total(sorted[..evicted])
      invariant target.Some? ==> forall n | 1 <= n <= evicted :: Total(sorted[..n]) < target.value
    {
      assert sorted[..evicted + 1][..evicted] == sorted[..evicted];
      freed := freed + sorted[evicted].footprint;
      evicted := evicted + 1;
      if target.Some? && freed >= target.value { break; }
    }
  }

  lemma {:induction false} TotalConcat(a: seq<Resident>, b: seq<Resident>)
    ensures Total(a + b) == Total(a) + Total(b)
  {
    if b == [] {
      assert a + b == a;
    } else {
      var c := a + b;
      assert c[..|c| - 1] == a + b[..|b| - 1];
      TotalConcat(a, b[..|b| - 1]);
    }
  }

  lemma TotalUncons(s: seq<Resident>)
    requires s != []
    ensures Total(s) == s[0].footprint + Total(s[1..])
  {
    assert s == [s[0]] + s[1..];
    TotalConcat([s[0]], s[1..]);
    assert [s[0]][..0] == [];
  }

  /** Dropping the largest lowers the total of every prefix length. */
  lemma {:induction false} ShiftedPrefix(s: seq<Resident>, n: nat)
    requires LargestFirst(s) && n < |s|
    ensures Total(s[1..][..n]) <= Total(s[..n])
  {
    if n > 0 {
      ShiftedPrefix(s, n - 1);
      assert s[1..][..n][..n - 1] == s[1..][..n - 1] && s[..n][..n - 1] == s[..n - 1];
    }
  }

  lemma RemoveOne(other: seq<Resident>, r: Resident) returns (rest: seq<Resident>)
    requires r in other
    ensures multiset(rest) + multiset{r} == multiset(other) && |rest| == |other| - 1
    ensures Total(other) == Total(rest) + r.footprint
  {
    var i :| 0 <= i < |other| && other[i] == r;
    rest := other[..i] + other[i + 1..];
    assert other == other[..i] + [r] + other[i + 1..];
    TotalConcat(other[..i], [r]);
    TotalConcat(other[..i] + [r], other[i + 1..]);
    TotalConcat(other[..i], other[i + 1..]);
    assert [r][..0] == [];
  }

  lemma SmallerMultiset(a: multiset<Resident>, b: multiset<Resident>)
    requires a <= b
    ensures |a| <= |b|
  {
    assert b == a + (b - a);
    assert |b| == |a| + |b - a|;
  }

  lemma NoLonger(other: seq<Resident>, s: seq<Resident>)
    requires multiset(other) <= multiset(s)
    ensures |other| <= |s|
  {
    SmallerMultiset(multiset(other), multiset(s));
    assert |multiset(other)| == |other| && |multiset(s)| == |s|;
  }

  lemma WithoutFirst(s: seq<Resident>, other: seq<Resident>)
    requires s != [] && multiset(other) <= multiset(s) && s[0] !in other
    ensures multiset(other) <= multiset(s[1..])
  {
    assert s == [s[0]] + s[1..];
    assert multiset(other)[s[0]] == 0;
  }

  lemma RestWithoutFirst(s: seq<Resident>, other: seq<Resident>, rest: seq<Resident>)
    requires s != [] && multiset(other) <= multiset(s) && multiset(rest) + multiset{s[0]} == multiset(other)
    ensures multiset(rest) <= multiset(s[1..])
  {
    assert s == [s[0]] + s[1..];
    forall r
      ensures multiset(rest)[r] <= multiset(s[1..])[r]
    {
      assert multiset(other)[r] <= multiset(s)[r];
    }
  }

  lemma LargestPlusRest(s: seq<Resident>, n: nat)
    requires 1 <= n <= |s|
    ensures Total(s[..n]) == s[0].footprint + Total(s[1..][..n - 1])
  {
    TotalUncons(s[..n]);
    assert s[..n][1..] == s[1..][..n - 1];
  }

  /** No n of the residents hold more than the n largest. */
  lemma {:induction false} LargestHoldMost(s: seq<Resident>, other: seq<Resident>)
    requires LargestFirst(s) && multiset(other) <= multiset(s)
    ensures |other| <= |s| && Total(other) <= Total(s[..|other|])
    decreases |s|
  {
    NoLonger(other, s);
    if other == [] {
      assert s[..0] == [];
    } else {
      if s[0] in other {
        var rest := RemoveOne(other, s[0]);
        RestWithoutFirst(s, other, rest);
        LargestHoldMost(s[1..], rest);
        LargestPlusRest(s, |other|);
      } else {
        WithoutFirst(s, other);
        LargestHoldMost(s[1..], other);
        ShiftedPrefix(s, |other|);
      }
    }
  }

  /** Largest-first is optimal: no choice of eligible residents that reaches the target is
      smaller than the loop's. */
  lemma FewestEvictions(sorted: seq<Resident>, target: real, evicted: nat, other: seq<Resident>)
    requires LargestFirst(sorted) && 1 <= evicted <= |sorted| && target > 0.0
    requires forall n | 1 <= n < evicted :: Total(sorted[..n]) < target
    requires multiset(other) <= multiset(sorted) && Total(other) >= target
    ensures |other| >= evicted
  {
    LargestHoldMost(sorted, other);
  }

  // ---- The two callers ---------------------------------------------------

  /** The retry's target: room for the needy instance's peak with a margin, counting what is
      free already; None (evict all) when the peak is not known from a run that succeeded. */
  function ReactiveTarget(peak: real, succeeded: bool, available: real, reported: real): Option<real> {
    if succeeded && peak > 0.0 then Some(Max(Max(peak * MARGIN - available, reported), 1.0)) else None
  }

  function AdmissionTarget(shortfall: real): real {
    Max(shortfall * MARGIN, 1.0)
  }

  /** After a reactive eviction every eligible resident is gone, or the needy peak fits with its
      margin, the reported shortfall is covered, and no smaller choice would have done. */
  method ReactiveChoice(candidates: seq<Resident>, peak: real, succeeded: bool, available: real, reported: real)
    returns (sorted: seq<Resident>, freed: real, evicted: nat)
    ensures multiset(sorted) == multiset(candidates) && LargestFirst(sorted)
    ensures evicted <= |sorted| && freed == Total(sorted[..evicted])
    ensures evicted == |sorted| || (available + freed >= MARGIN * peak && freed >= reported && freed >= 1.0)
    ensures !(succeeded && peak > 0.0) ==> evicted == |sorted|
    ensures succeeded && peak > 0.0 ==>
              forall other: seq<Resident> | multiset(other) <= multiset(candidates) && |other| < evicted ::
                available + Total(other) < MARGIN * peak || Total(other) < reported || Total(other) < 1.0
  {
    sorted := SortLargestFirst(candidates);
    var target := ReactiveTarget(peak, succeeded, available, reported);
    freed, evicted := Choose(sorted, target);
    if succeeded && peak > 0.0 {
      forall other: seq<Resident> | multiset(other) <= multiset(candidates) && |other| < evicted
        ensures available + Total(other) < MARGIN * peak || Total(other) < reported || Total(other) < 1.0
      {
        if Total(other) >= target.value { FewestEvictions(sorted, target.value, evicted, other); }
      }
    }
  }

  /** After an admission eviction every eligible resident is gone or the shortfall is covered
      with its margin, by the fewest residents that can. */
  method AdmissionChoice(candidates: seq<Resident>, shortfall: real)
    returns (sorted: seq<Resident>, freed: real, evicted: nat)
    ensures multiset(sorted) == multiset(candidates) && LargestFirst(sorted)
    ensures evicted <= |sorted| && freed == Total(sorted[..evicted])
    ensures evicted == |sorted| || freed >= MARGIN * shortfall
    ensures forall other: seq<Resident> | multiset(other) <= multiset(candidates) && |other| < evicted ::
              Total(other) < MARGIN * shortfall || Total(other) < 1.0
  {
    sorted := SortLargestFirst(candidates);
    var target := AdmissionTarget(shortfall);
    freed, evicted := Choose(sorted, Some(target));
    forall other: seq<Resident> | multiset(other) <= multiset(candidates) && |other| < evicted
      ensures Total(other) < MARGIN * shortfall || Total(other) < 1.0
    {
      if Total(other) >= target { FewestEvictions(sorted, target, evicted, other); }
    }
  }

  // ---- Eviction before an execution --------------------------------------

  /** A loaded capability that could be reloaded to make room. */
  datatype Idle = Idle(name: Id, lastExecuted: real, peak: real)

  /** The sort key compares the negated time of the last execution first, then the negated peak. */
  predicate Before(a: Idle, b: Idle) {
    -a.lastExecuted < -b.lastExecuted || (a.lastExecuted == b.lastExecuted && -a.peak <= -b.peak)
  }

  predicate InKeyOrder(s: seq<Idle>) {
    forall i, j | 0 <= i < j < |s| :: Before(s[i], s[j])
  }

  /** The order is most recently used first: what goes first is the least recently used
      candidate exactly when all were last used at the same time. */
  lemma MostRecentGoesFirst(s: seq<Idle>)
    requires s != [] && InKeyOrder(s)
    ensures forall i | 0 <= i < |s| :: s[0].lastExecuted >= s[i].lastExecuted
    ensures (forall i | 0 <= i < |s| :: s[0].lastExecuted <= s[i].lastExecuted)
            <==> forall i, j | 0 <= i < |s| && 0 <= j < |s| :: s[i].lastExecuted == s[j].lastExecuted
  {
    forall i | 0 <= i < |s|
      ensures s[0].lastExecuted >= s[i].lastExecuted
    {
      assert i == 0 || Before(s[0], s[i]);
    }
  }

  /** Of one used at 100 and one used at 200, the recent one is evicted. */
  lemma RecentlyUsedIsEvicted()
    ensures InKeyOrder([Idle("recent", 200.0, 0.0), Idle("old", 100.0, 0.0)])
    ensures !InKeyOrder([Idle("old", 100.0, 0.0), Idle("recent", 200.0, 0.0)])
  {
    var wrong := [Idle("old", 100.0, 0.0), Idle("recent", 200.0, 0.0)];
    assert !Before(wrong[0], wrong[1]);
  }
}
