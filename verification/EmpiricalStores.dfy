/** The empirical resource store: online aggregates, one row per instance and config hash,
    against the samples they were folded from. Amounts are exact reals. */
module EmpiricalStores {
  import opened Results

  type Id = string
  type Hash = string
  type Key = (Id, Hash)

  datatype Sample = Sample(cpu: real, memory: real, gpu: real, duration: real, success: bool,
                           observedAt: int, usage: map<string, real>)

  datatype Row = Row(capability: Id, count: nat, successes: nat, cpuMean: real, memoryMax: real, memoryMean: real,
                     gpuMax: real, gpuMean: real, durationMean: real, lastObserved: int, usage: map<string, real>)

  datatype Recording = Recording(key: Key, capability: Id, sample: Sample)

  // ---- What a row should say ---------------------------------------------

  function Sum(samples: seq<Sample>, f: Sample -> real): real {
    if samples == [] then 0.0 else Sum(samples[..|samples| - 1], f) + f(samples[|samples| - 1])
  }

  function Successes(samples: seq<Sample>): nat {
    if samples == [] then 0
    else Successes(samples[..|samples| - 1]) + if samples[|samples| - 1].success then 1 else 0
  }

  function Units(samples: seq<Sample>): set<string> {
    set i, u | 0 <= i < |samples| && u in samples[i].usage :: u
  }

  function Used(unit: string): Sample -> real {
    (s: Sample) => if unit in s.usage then s.usage[unit] else 0.0
  }

  function Cpu(): Sample -> real { (s: Sample) => s.cpu }

  function Memory(): Sample -> real { (s: Sample) => s.memory }

  function Gpu(): Sample -> real { (s: Sample) => s.gpu }

  function Duration(): Sample -> real { (s: Sample) => s.duration }

  ghost predicate IsMax(samples: seq<Sample>, f: Sample -> real, max: real) {
    && (forall i | 0 <= i < |samples| :: f(samples[i]) <= max)
    && (exists i :: 0 <= i < |samples| && f(samples[i]) == max)
  }

  ghost predicate IsMean(samples: seq<Sample>, f: Sample -> real, mean: real) {
    mean * |samples| as real == Sum(samples, f)
  }

  ghost predicate UsageOk(samples: seq<Sample>, usage: map<string, real>) {
    usage.Keys == Units(samples) && forall u | u in usage :: usage[u] == Sum(samples, Used(u))
  }

  /** The row describes exactly these samples, in this order. */
  ghost predicate Describes(row: Row, samples: seq<Sample>) {
    && samples != [] && row.count == |samples| && row.successes == Successes(samples)
    && IsMean(samples, Cpu(), row.cpuMean) && IsMean(samples, Duration(), row.durationMean)
    && IsMean(samples, Memory(), row.memoryMean) && IsMax(samples, Memory(), row.memoryMax)
    && IsMean(samples, Gpu(), row.gpuMean) && IsMax(samples, Gpu(), row.gpuMax)
    && row.lastObserved == samples[|samples| - 1].observedAt
    && UsageOk(samples, row.usage)
  }

  // ---- Folding a sample in -----------------------------------------------

  function Max(a: real, b: real): real { if a >= b then a else b }

  function RunningMean(mean: real, x: real, n: nat): real
    requires n > 0
  {
    mean + (x - mean) / n as real
  }

  function FirstRow(capability: Id, s: Sample): Row {
    Row(capability, 1, if s.success then 1 else 0, s.cpu, s.memory, s.memory, s.gpu, s.gpu,
        s.duration, s.observedAt, s.usage)
  }

  function MergedUsage(totals: map<string, real>, usage: map<string, real>): map<string, real> {
    map u | u in totals.Keys + usage.Keys ::
      (if u in totals then totals[u] else 0.0) + (if u in usage then usage[u] else 0.0)
  }

  function NextRow(row: Row, capability: Id, s: Sample): Row {
    var n := row.count + 1;
    Row(capability, n, row.successes + if s.success then 1 else 0, RunningMean(row.cpuMean, s.cpu, n),
        Max(row.memoryMax, s.memory), RunningMean(row.memoryMean, s.memory, n),
        Max(row.gpuMax, s.gpu), RunningMean(row.gpuMean, s.gpu, n),
        RunningMean(row.durationMean, s.duration, n), s.observedAt, MergedUsage(row.usage, s.usage))
  }

  lemma MeanStep(samples: seq<Sample>, f: Sample -> real, mean: real, s: Sample)
    requires IsMean(samples, f, mean)
    ensures IsMean(samples + [s], f, RunningMean(mean, f(s), |samples| + 1))
  {
    var after := samples + [s];
    assert after[..|after| - 1] == samples;
    var n := |after| as real;
    var delta := (f(s) - mean) / n;
    assert delta * n == f(s) - mean;
    calc {
      (mean + delta) * n;
      mean * n + delta * n;
      mean * |samples| as real + mean + (f(s) - mean);
      Sum(samples, f) + f(s);
    }
  }

  lemma MaxStep(samples: seq<Sample>, f: Sample -> real, max: real, s: Sample)
    requires IsMax(samples, f, max)
    ensures IsMax(samples + [s], f, Max(max, f(s)))
  {
    var after := samples + [s];
    var i :| 0 <= i < |samples| && f(samples[i]) == max;
    assert after[i] == samples[i] && after[|samples|] == s;
  }

  lemma UnitsSnoc(samples: seq<Sample>, s: Sample)
    ensures Units(samples + [s]) == Units(samples) + s.usage.Keys
  {
    var after := samples + [s];
    assert after[|samples|] == s && forall i | 0 <= i < |samples| :: after[i] == samples[i];
  }

  lemma {:induction false} UnusedUnit(samples: seq<Sample>, u: string)
    requires u !in Units(samples)
    ensures Sum(samples, Used(u)) == 0.0
  {
    if samples != [] {
      var front := samples[..|samples| - 1];
      assert samples == front + [samples[|samples| - 1]];
      UnitsSnoc(front, samples[|samples| - 1]);
      UnusedUnit(front, u);
    }
  }

  lemma UsageStep(samples: seq<Sample>, totals: map<string, real>, s: Sample)
    requires UsageOk(samples, totals)
    ensures UsageOk(samples + [s], MergedUsage(totals, s.usage))
  {
    var after := samples + [s];
    assert after[..|after| - 1] == samples;
    UnitsSnoc(samples, s);
    forall u | u in MergedUsage(totals, s.usage)
      ensures MergedUsage(totals, s.usage)[u] == Sum(after, Used(u))
    {
      if u !in totals { UnusedUnit(samples, u); }
    }
  }

  lemma FirstDescribes(capability: Id, s: Sample)
    ensures Describes(FirstRow(capability, s), [s])
  {
    OneSample(s, Cpu());
    OneSample(s, Memory());
    OneSample(s, Gpu());
    OneSample(s, Duration());
    OneUsage(s);
    assert [s][..0] == [];
  }

  lemma OneSample(s: Sample, f: Sample -> real)
    ensures Sum([s], f) == f(s) && IsMean([s], f, f(s)) && IsMax([s], f, f(s))
  {
    assert [s][..0] == [] && [s][0] == s;
  }

  lemma OneUsage(s: Sample)
    ensures UsageOk([s], s.usage)
  {
    UnitsSnoc([], s);
    assert [] + [s] == [s];
    forall u | u in s.usage
      ensures s.usage[u] == Sum([s], Used(u))
    {
      OneSample(s, Used(u));
    }
  }

  lemma NextDescribes(row: Row, samples: seq<Sample>, capability: Id, s: Sample)
    requires Describes(row, samples)
    ensures Describes(NextRow(row, capability, s), samples + [s])
  {
    var after := samples + [s];
    assert after[..|after| - 1] == samples;
    MeanStep(samples, Cpu(), row.cpuMean, s);
    MeanStep(samples, Duration(), row.durationMean, s);
    MeanStep(samples, Memory(), row.memoryMean, s);
    MeanStep(samples, Gpu(), row.gpuMean, s);
    MaxStep(samples, Memory(), row.memoryMax, s);
    MaxStep(samples, Gpu(), row.gpuMax, s);
    UsageStep(samples, row.usage, s);
  }

  // ---- The store ---------------------------------------------------------

  /** The samples recorded under a key, in order. */
  function SamplesOf(history: seq<Recording>, key: Key): seq<Sample> {
    if history == [] then []
    else
      var last := history[|history| - 1];
      SamplesOf(history[..|history| - 1], key) + if last.key == key then [last.sample] else []
  }

  /** Every row describes its own key's samples, and no key with samples is without a row. */
  ghost predicate Follows(rows: map<Key, Row>, history: seq<Recording>) {
    forall key :: if key in rows then Describes(rows[key], SamplesOf(history, key)) else SamplesOf(history, key) == []
  }

  function Folded(rows: map<Key, Row>, r: Recording): map<Key, Row> {
    rows[r.key := if r.key in rows then NextRow(rows[r.key], r.capability, r.sample) else FirstRow(r.capability, r.sample)]
  }

  function AllFolded(history: seq<Recording>): map<Key, Row> {
    if history == [] then map[] else Folded(AllFolded(history[..|history| - 1]), history[|history| - 1])
  }

  /** After any recordings, over any interleaving of keys, each row describes exactly the samples
      recorded under its own key. */
  lemma {:induction false} RowsFollowHistory(history: seq<Recording>)
    ensures Follows(AllFolded(history), history)
  {
    if history != [] {
      var front, r := history[..|history| - 1], history[|history| - 1];
      RowsFollowHistory(front);
      var rows := AllFolded(front);
      forall k
        ensures if k in Folded(rows, r) then Describes(Folded(rows, r)[k], SamplesOf(history, k))
                else SamplesOf(history, k) == []
      {
        if k == r.key {
          if k in rows {
            NextDescribes(rows[k], SamplesOf(front, k), r.capability, r.sample);
          } else {
            FirstDescribes(r.capability, r.sample);
            assert SamplesOf(history, k) == [r.sample];
          }
        } else {
          assert SamplesOf(history, k) == SamplesOf(front, k);
        }
      }
    }
  }

  class EmpiricalStore {
    var rows: map<Key, Row>

    constructor ()
      ensures rows == AllFolded([])
    {
      rows := map[];
    }

    method RecordSample(key: Key, capability: Id, sample: Sample)
      modifies this
      ensures rows == Folded(old(rows), Recording(key, capability, sample))
    {
      var delta := if sample.success then 1 else 0;
      var row;
      if key !in rows {
        row := Row(capability, 1, delta, sample.cpu, sample.memory, sample.memory, sample.gpu, sample.gpu,
                   sample.duration, sample.observedAt, sample.usage);
      } else {
        var r := rows[key];
        var n := r.count + 1;
        row := Row(capability, n, r.successes + delta,
                   r.cpuMean + (sample.cpu - r.cpuMean) / n as real,
                   Max(r.memoryMax, sample.memory),
                   r.memoryMean + (sample.memory - r.memoryMean) / n as real,
                   Max(r.gpuMax, sample.gpu),
                   r.gpuMean + (sample.gpu - r.gpuMean) / n as real,
                   r.durationMean + (sample.duration - r.durationMean) / n as real,
                   sample.observedAt, MergedUsage(r.usage, sample.usage));
      }
      rows := rows[key := row];
    }

    /** The admission profile of an instance: whatever was measured, it describes exactly the
        samples measured under the live config, and there is none exactly when there are none. */
    method AdmissionProfile(id: Id, configHash: Hash) returns (profile: Option<Row>)
      ensures configHash == "" ==> profile.None?
      ensures forall runs: seq<Measured>, hash: Config -> Hash, config: Config
                | rows == AllFolded(Keyed(runs, hash)) && Injective(hash) && configHash == hash(config) ::
                  ProfileTells(profile, configHash, MeasuredUnder(runs, id, config))
    {
      profile := if configHash == "" || (id, configHash) !in rows then None else Some(rows[(id, configHash)]);
      forall runs: seq<Measured>, hash: Config -> Hash, config: Config
        | rows == AllFolded(Keyed(runs, hash)) && Injective(hash) && configHash == hash(config)
        ensures ProfileTells(profile, configHash, MeasuredUnder(runs, id, config))
      {
        RowsFollowHistory(Keyed(runs, hash));
        ProfileIsOfTheLiveConfig(runs, hash, id, config);
      }
    }
  }

  /** A profile describes just these samples, and without a profile there are none. */
  ghost predicate ProfileTells(profile: Option<Row>, configHash: Hash, samples: seq<Sample>) {
    && (profile.Some? ==> Describes(profile.value, samples))
    && (configHash != "" ==> (profile.None? <==> samples == []))
  }

  // ---- What the aggregates mean ------------------------------------------

  lemma {:induction false} SumAtMost(samples: seq<Sample>, f: Sample -> real, max: real)
    requires forall i | 0 <= i < |samples| :: f(samples[i]) <= max
    ensures Sum(samples, f) <= max * |samples| as real
  {
    if samples != [] {
      SumAtMost(samples[..|samples| - 1], f, max);
    }
  }

  /** The mean of the peaks never exceeds the worst peak. */
  lemma MeansStayBelowMaxima(row: Row, samples: seq<Sample>)
    requires Describes(row, samples)
    ensures row.memoryMean <= row.memoryMax && row.gpuMean <= row.gpuMax && row.successes <= row.count
  {
    SumAtMost(samples, Memory(), row.memoryMax);
    SumAtMost(samples, Gpu(), row.gpuMax);
    MeanBelow(row.memoryMean, row.memoryMax, |samples|);
    MeanBelow(row.gpuMean, row.gpuMax, |samples|);
    FewSuccesses(samples);
  }

  lemma MeanBelow(mean: real, max: real, n: nat)
    requires n > 0 && mean * n as real <= max * n as real
    ensures mean <= max
  {
    assert (mean - max) * n as real <= 0.0;
  }

  lemma {:induction false} FewSuccesses(samples: seq<Sample>)
    ensures Successes(samples) <= |samples|
  {
    if samples != [] { FewSuccesses(samples[..|samples| - 1]); }
  }

  lemma {:induction false} SumWithout(samples: seq<Sample>, i: nat, f: Sample -> real)
    requires i < |samples|
    ensures Sum(samples, f) == Sum(samples[..i] + samples[i + 1..], f) + f(samples[i])
    ensures Successes(samples) == Successes(samples[..i] + samples[i + 1..]) + if samples[i].success then 1 else 0
  {
    var rest := samples[..i] + samples[i + 1..];
    if i == |samples| - 1 {
      assert rest == samples[..i];
    } else {
      var front := samples[..|samples| - 1];
      SumWithout(front, i, f);
      assert rest[..|rest| - 1] == front[..i] + front[i + 1..];
      assert rest[|rest| - 1] == samples[|samples| - 1];
    }
  }

  lemma WithoutMatches(a: seq<Sample>, b: seq<Sample>) returns (i: nat)
    requires a != [] && multiset(a) == multiset(b)
    ensures i < |b| && b[i] == a[|a| - 1] && multiset(a[..|a| - 1]) == multiset(b[..i] + b[i + 1..])
  {
    var x := a[|a| - 1];
    assert a == a[..|a| - 1] + [x];
    assert x in multiset(b);
    i :| 0 <= i < |b| && b[i] == x;
    assert b == b[..i] + [x] + b[i + 1..];
    assert multiset(b[..i] + b[i + 1..]) == multiset(b) - multiset{x};
    assert multiset(a[..|a| - 1]) == multiset(a) - multiset{x};
  }

  /** Sums do not depend on the order of the samples. */
  lemma {:induction false} SumsAgree(a: seq<Sample>, b: seq<Sample>, f: Sample -> real)
    requires multiset(a) == multiset(b)
    ensures Sum(a, f) == Sum(b, f) && Successes(a) == Successes(b) && |a| == |b|
  {
    if a == [] {
      assert |multiset(b)| == 0;
    } else {
      var i := WithoutMatches(a, b);
      SumsAgree(a[..|a| - 1], b[..i] + b[i + 1..], f);
      SumWithout(b, i, f);
    }
  }

  lemma SameMax(a: seq<Sample>, b: seq<Sample>, f: Sample -> real, m: real, n: real)
    requires multiset(a) == multiset(b) && IsMax(a, f, m) && IsMax(b, f, n)
    ensures m == n
  {
    var i :| 0 <= i < |a| && f(a[i]) == m;
    var j :| 0 <= j < |b| && f(b[j]) == n;
    assert a[i] in multiset(b) && b[j] in multiset(a);
  }

  lemma SameMean(a: seq<Sample>, b: seq<Sample>, f: Sample -> real, m: real, n: real)
    requires multiset(a) == multiset(b) && a != [] && IsMean(a, f, m) && IsMean(b, f, n)
    ensures m == n
  {
    SumsAgree(a, b, f);
    MeanBelow(m, n, |a|);
    MeanBelow(n, m, |a|);
  }

  lemma SameUsage(a: seq<Sample>, b: seq<Sample>, m: map<string, real>, n: map<string, real>)
    requires multiset(a) == multiset(b) && UsageOk(a, m) && UsageOk(b, n)
    ensures m == n
  {
    UnitsWithin(a, b);
    UnitsWithin(b, a);
    forall u | u in m
      ensures m[u] == n[u]
    {
      SumsAgree(a, b, Used(u));
    }
  }

  lemma UnitsWithin(a: seq<Sample>, b: seq<Sample>)
    requires multiset(a) == multiset(b)
    ensures Units(a) <= Units(b)
  {
    forall u | u in Units(a)
      ensures u in Units(b)
    {
      var i :| 0 <= i < |a| && u in a[i].usage;
      assert a[i] in multiset(b);
    }
  }

  /** Samples recorded in another order leave the same row, but for the name and the time of the
      last observation. */
  lemma OrderDoesNotMatter(r: Row, a: seq<Sample>, t: Row, b: seq<Sample>)
    requires Describes(r, a) && Describes(t, b) && multiset(a) == multiset(b)
    ensures t == r.(capability := t.capability, lastObserved := t.lastObserved)
  {
    SumsAgree(a, b, Cpu());
    SameMean(a, b, Cpu(), r.cpuMean, t.cpuMean);
    SameMean(a, b, Duration(), r.durationMean, t.durationMean);
    SameMean(a, b, Memory(), r.memoryMean, t.memoryMean);
    SameMean(a, b, Gpu(), r.gpuMean, t.gpuMean);
    SameMax(a, b, Memory(), r.memoryMax, t.memoryMax);
    SameMax(a, b, Gpu(), r.gpuMax, t.gpuMax);
    SameUsage(a, b, r.usage, t.usage);
  }

  // ---- Samples by configuration ------------------------------------------

  type Config = map<string, string>

  /** One measured execution of an instance under the config it then had. */
  datatype Measured = Measured(id: Id, config: Config, capability: Id, sample: Sample)

  ghost predicate Injective(hash: Config -> Hash) {
    forall c, d :: hash(c) == hash(d) ==> c == d
  }

  /** What the manager records: the hash of the live config is part of the key. */
  function Keyed(runs: seq<Measured>, hash: Config -> Hash): seq<Recording> {
    if runs == [] then []
    else
      var r := runs[|runs| - 1];
      Keyed(runs[..|runs| - 1], hash) + [Recording((r.id, hash(r.config)), r.capability, r.sample)]
  }

  function MeasuredUnder(runs: seq<Measured>, id: Id, config: Config): seq<Sample> {
    if runs == [] then []
    else
      var r := runs[|runs| - 1];
      MeasuredUnder(runs[..|runs| - 1], id, config) + if r.id == id && r.config == config then [r.sample] else []
  }

  /** The profile read for a live config is made of that config's samples and no other's. */
  lemma {:induction false} ProfileIsOfTheLiveConfig(runs: seq<Measured>, hash: Config -> Hash, id: Id, config: Config)
    requires Injective(hash)
    ensures SamplesOf(Keyed(runs, hash), (id, hash(config))) == MeasuredUnder(runs, id, config)
  {
    if runs != [] {
      var front := runs[..|runs| - 1];
      var r := runs[|runs| - 1];
      ProfileIsOfTheLiveConfig(front, hash, id, config);
      var keyed := Keyed(runs, hash);
      assert keyed[..|keyed| - 1] == Keyed(front, hash);
    }
  }
}
