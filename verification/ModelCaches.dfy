/** Pruning the shared model cache: hub directories and Ollama tags outside the working set, and
    the Ollama blobs that no surviving tag names. */
module ModelCaches {
  import opened Results

  // ---- Text helpers ------------------------------------------------------

  /** "--" read as "/", left to right. */
  function Contract(s: string): string {
    if |s| < 2 then s
    else if s[0] == '-' && s[1] == '-' then "/" + Contract(s[2..])
    else [s[0]] + Contract(s[1..])
  }

  /** "/" written as "--". */
  function Expand(s: string): string {
    if s == "" then "" else (if s[0] == '/' then "--" else [s[0]]) + Expand(s[1..])
  }

  /** Where the first "--" starts, if there is one. */
  function FirstDashes(s: string): (i: Option<nat>)
    ensures i.Some? ==> i.value + 2 <= |s| && s[i.value] == '-' && s[i.value + 1] == '-'
    ensures i.Some? ==> forall j | 0 <= j < i.value :: !(s[j] == '-' && s[j + 1] == '-')
    ensures i.None? ==> forall j | 0 <= j < |s| - 1 :: !(s[j] == '-' && s[j + 1] == '-')
  {
    if |s| < 2 then None
    else if s[0] == '-' && s[1] == '-' then Some(0)
    else
      match FirstDashes(s[1..])
      case None => None
      case Some(i) => Some(i + 1)
  }

  /** Without the trailing letters s, all of them. */
  function StripS(s: string): (r: string)
    ensures r <= s && (r == "" || r[|r| - 1] != 's')
  {
    if s != "" && s[|s| - 1] == 's' then StripS(s[..|s| - 1]) else s
  }

  /** Where the last c is, if there is one. */
  function LastOf(s: string, c: char): (i: Option<nat>)
    ensures i.Some? ==> i.value < |s| && s[i.value] == c && forall j | i.value < j < |s| :: s[j] != c
    ensures i.None? ==> c !in s
  {
    if s == "" then None else if s[|s| - 1] == c then Some(|s| - 1) else LastOf(s[..|s| - 1], c)
  }

  lemma {:induction false} ExpandContract(s: string)
    requires '/' !in s
    ensures Expand(Contract(s)) == s
  {
    if |s| >= 2 {
      if s[0] == '-' && s[1] == '-' {
        ExpandContract(s[2..]);
        assert Contract(s)[1..] == Contract(s[2..]);
        assert s == "--" + s[2..];
      } else {
        ExpandContract(s[1..]);
        assert Contract(s)[1..] == Contract(s[1..]);
        assert s == [s[0]] + s[1..];
      }
    } else if |s| == 1 {
      assert s[1..] == "" && s == [s[0]] + s[1..];
    }
  }

  // ---- Hugging Face hub directories --------------------------------------

  datatype HubEntry = HubEntry(kind: string, repo: string)

  /** What a hub directory is listed as. */
  function HubEntryOf(dir: string): Option<HubEntry> {
    match FirstDashes(dir)
    case None => None
    case Some(i) => Some(HubEntry(StripS(dir[..i]), Contract(dir[i + 2..])))
  }

  /** The directory that a prune of the entry removes. */
  function HubDir(e: HubEntry): string { e.kind + "s--" + Expand(e.repo) }

  lemma HubDirOf(kind: string, rest: string)
    requires '/' !in rest
    ensures HubDir(HubEntry(kind, Contract(rest))) == kind + "s" + ("--" + rest)
  {
    ExpandContract(rest);
  }

  lemma HubDirRestores(dir: string, i: nat)
    requires '/' !in dir && FirstDashes(dir) == Some(i)
    ensures HubDir(HubEntryOf(dir).value) == StripS(dir[..i]) + "s" + dir[i..]
  {
    HubDirOf(StripS(dir[..i]), dir[i + 2..]);
    assert dir[i..] == "--" + dir[i + 2..];
  }

  /** A listed directory is the one a prune would remove exactly when its kind ends in one s. */
  lemma HubDirsRoundTripIff(dir: string, i: nat)
    requires '/' !in dir && FirstDashes(dir) == Some(i)
    ensures HubDir(HubEntryOf(dir).value) == dir
            <==> i >= 1 && dir[i - 1] == 's' && (i == 1 || dir[i - 2] != 's')
  {
    HubDirRestores(dir, i);
    var kind := dir[..i];
    assert dir == kind + dir[i..];
    SuffixCancels(StripS(kind) + "s", kind, dir[i..]);
    StripsOne(kind);
  }

  lemma SuffixCancels(a: string, b: string, s: string)
    ensures a + s == b + s <==> a == b
  {
    if a + s == b + s {
      assert |a| == |b|;
      assert (a + s)[..|a|] == a && (b + s)[..|b|] == b;
    }
  }

  lemma StripsOne(s: string)
    ensures StripS(s) + "s" == s <==> |s| >= 1 && s[|s| - 1] == 's' && (|s| == 1 || s[|s| - 2] != 's')
  {
    if s != "" && s[|s| - 1] == 's' {
      var front := s[..|s| - 1];
      assert s == front + "s";
      SuffixCancels(StripS(s), front, "s");
    }
  }

  lemma DashesAfterKind(kind: string, rest: string)
    requires forall j | 0 <= j < |kind| - 1 :: !(kind[j] == '-' && kind[j + 1] == '-')
    ensures var target := kind + "s" + ("--" + rest);
            FirstDashes(target) == Some(|kind| + 1) && target[|kind| + 3..] == rest
  {
    var target := kind + "s" + ("--" + rest);
    assert target[|kind|] == 's' && target[|kind| + 1] == '-' && target[|kind| + 2] == '-';
    forall j | 0 <= j < |kind| + 1
      ensures !(target[j] == '-' && target[j + 1] == '-')
    {
      assert j < |kind| ==> target[j] == kind[j];
      assert j + 1 < |kind| ==> target[j + 1] == kind[j + 1];
    }
  }

  lemma EntryAfterKind(kind: string, rest: string)
    requires forall j | 0 <= j < |kind| - 1 :: !(kind[j] == '-' && kind[j + 1] == '-')
    ensures var target := kind + "s" + ("--" + rest);
            HubEntryOf(target).Some? && HubEntryOf(target).value.repo == Contract(rest)
  {
    DashesAfterKind(kind, rest);
  }

  lemma KindHasNoDashes(dir: string, i: nat)
    requires FirstDashes(dir) == Some(i)
    ensures var kind := StripS(dir[..i]); forall j | 0 <= j < |kind| - 1 :: !(kind[j] == '-' && kind[j + 1] == '-')
  {
    var kind := StripS(dir[..i]);
    forall j | 0 <= j < |kind| - 1
      ensures !(kind[j] == '-' && kind[j + 1] == '-')
    {
      assert kind[j] == dir[j] && kind[j + 1] == dir[j + 1];
    }
  }

  /** Whatever directory an entry's prune removes is listed under the entry's own repo id. */
  lemma HubPruneStaysWithinTheRepo(dir: string, i: nat)
    requires '/' !in dir && FirstDashes(dir) == Some(i)
    ensures var e := HubEntryOf(dir).value;
            HubEntryOf(HubDir(e)).Some? && HubEntryOf(HubDir(e)).value.repo == e.repo
  {
    HubDirOf(StripS(dir[..i]), dir[i + 2..]);
    KindHasNoDashes(dir, i);
    EntryAfterKind(StripS(dir[..i]), dir[i + 2..]);
  }

  // ---- Ollama tags -------------------------------------------------------

  /** A file below the manifests directory, by its path components. */
  type TagPath = seq<string>

  predicate Components(m: TagPath) {
    forall i | 0 <= i < |m| :: '/' !in m[i] && m[i] != ""
  }

  /** The listed name, from the first four components; deeper files are listed like their parent. */
  function TagName(m: TagPath): string
    requires |m| >= 4
  {
    if m[1] == "library" then m[2] + ":" + m[3] else m[1] + "/" + m[2] + ":" + m[3]
  }

  /** The path that a prune removes for a listed name. */
  function TagFile(registry: string, name: string): (p: TagPath)
    ensures |p| == 4
  {
    var colon := LastOf(name, ':');
    var (model, tag) := if colon.Some? then (name[..colon.value], name[colon.value + 1..]) else ("", name);
    var slash := LastOf(model, '/');
    if slash.Some? then
      [registry, if slash.value == 0 then "library" else model[..slash.value], model[slash.value + 1..], tag]
    else [registry, "library", model, tag]
  }

  lemma {:induction false} LastOfSplit(a: string, c: char, b: string)
    requires c !in b
    ensures LastOf(a + [c] + b, c) == Some(|a|)
    ensures (a + [c] + b)[..|a|] == a && (a + [c] + b)[|a| + 1..] == b
  {
    var s := a + [c] + b;
    if b == "" {
      assert s == a + [c];
    } else {
      LastOfSplit(a, c, b[..|b| - 1]);
      assert s[..|s| - 1] == a + [c] + b[..|b| - 1];
      assert s[|s| - 1] == b[|b| - 1] && b[|b| - 1] in b;
    }
  }

  lemma TagFileOf(registry: string, ns: string, rest: string, tag: string)
    requires ':' !in tag && '/' !in rest && '/' !in ns && ns != ""
    ensures TagFile(registry, rest + ":" + tag) == [registry, "library", rest, tag]
    ensures TagFile(registry, ns + "/" + rest + ":" + tag) == [registry, ns, rest, tag]
  {
    LastOfSplit(rest, ':', tag);
    LastOfSplit(ns + "/" + rest, ':', tag);
    LastOfSplit(ns, '/', rest);
    assert LastOf(rest, '/').None?;
  }

  /** A four-part tag without a colon is found again from its name. */
  lemma TagFileRoundTrips(m: TagPath)
    requires |m| == 4 && Components(m) && ':' !in m[3]
    ensures TagFile(m[0], TagName(m)) == m
  {
    TagFileOf(m[0], m[1], m[2], m[3]);
    assert m == [m[0], m[1], m[2], m[3]];
  }

  lemma {:induction false} SplitAtLastColon(model: string, tag: string) returns (rest: string, last: string)
    requires '/' !in model && '/' !in tag
    ensures model + ":" + tag == rest + ":" + last && ':' !in last && '/' !in rest
    decreases |tag|
  {
    if ':' in tag {
      var i :| 0 <= i < |tag| && tag[i] == ':';
      rest, last := SplitAtLastColon(model + ":" + tag[..i], tag[i + 1..]);
      assert tag == tag[..i] + ":" + tag[i + 1..];
      assert model + ":" + tag == (model + ":" + tag[..i]) + ":" + tag[i + 1..];
    } else {
      rest, last := model, tag;
    }
  }

  /** Even with a colon in the tag the path that is removed is listed under the same name. */
  lemma TagFileKeepsTheName(m: TagPath)
    requires |m| >= 4 && Components(m)
    ensures TagName(TagFile(m[0], TagName(m))) == TagName(m)
  {
    var rest, last := SplitAtLastColon(m[2], m[3]);
    TagFileOf(m[0], m[1], rest, last);
    if m[1] != "library" {
      Regroup(m[1], m[2], m[3]);
      Regroup(m[1], rest, last);
    }
  }

  lemma Regroup(ns: string, model: string, tag: string)
    ensures ns + "/" + model + ":" + tag == ns + "/" + (model + ":" + tag)
  {
  }

  // ---- The Ollama store --------------------------------------------------

  /** Which names the code refers to or the keep file pins. */
  datatype WorkingSet = WorkingSet(names: set<string>)

  function Listed(tags: map<TagPath, Option<set<string>>>): set<TagPath> {
    set m | m in tags && |m| >= 4
  }

  /** The path is a manifest file or a directory above one. */
  predicate Present(tags: map<TagPath, Option<set<string>>>, p: TagPath) {
    exists t | t in tags :: p <= t
  }

  predicate Prunable(tags: map<TagPath, Option<set<string>>>, ws: WorkingSet, m: TagPath) {
    |m| >= 4 && TagName(m) !in ws.names && Present(tags, TagFile(m[0], TagName(m)))
  }

  /** The existing paths that a prune removes. */
  function Pruned(tags: map<TagPath, Option<set<string>>>, ws: WorkingSet): set<TagPath> {
    set m | m in Listed(tags) && Prunable(tags, ws, m) :: TagFile(m[0], TagName(m))
  }

  /** The tags that go: a removed directory takes what is below it. */
  function Gone(tags: map<TagPath, Option<set<string>>>, pruned: set<TagPath>): set<TagPath> {
    set m | m in tags && exists p | p in pruned :: p <= m
  }

  /** The blobs that readable tags other than the pruned paths name. */
  function Survivors(tags: map<TagPath, Option<set<string>>>, pruned: set<TagPath>): set<string> {
    set m, b | m in tags && m !in pruned && tags[m].Some? && b in tags[m].value :: b
  }

  class OllamaStore {
    /** The manifest files: the blobs each names, or None when it cannot be read. */
    var tags: map<TagPath, Option<set<string>>>
    var blobs: set<string>

    constructor (files: map<TagPath, Option<set<string>>>, store: set<string>)
      ensures tags == files && blobs == store
    {
      tags, blobs := files, store;
    }

    method PruneTargets(ws: WorkingSet) returns (pruned: set<TagPath>)
      ensures pruned == Pruned(tags, ws)
    {
      pruned := {};
      var todo := Listed(tags);
      while todo != {}
        invariant todo <= Listed(tags)
        invariant pruned == set m | m in Listed(tags) - todo && Prunable(tags, ws, m) :: TagFile(m[0], TagName(m))
      {
        var m :| m in todo;
        todo := todo - {m};
        if TagName(m) !in ws.names && Present(tags, TagFile(m[0], TagName(m))) {
          pruned := pruned + {TagFile(m[0], TagName(m))};
        }
      }
      assert Listed(tags) - todo == Listed(tags);
    }

    method ReferencedBlobs(exclude: set<TagPath>) returns (keep: set<string>)
      ensures keep == Survivors(tags, exclude)
    {
      keep := {};
      var todo := tags.Keys;
      while todo != {}
        invariant todo <= tags.Keys
        invariant keep == set m, b | m in tags && m !in todo && m !in exclude && tags[m].Some? && b in tags[m].value :: b
      {
        var m :| m in todo;
        todo := todo - {m};
        if m !in exclude && tags[m].Some? { keep := keep + tags[m].value; }
      }
    }

    /** Lists what a prune removes, and with `yes` removes it. The list is made before anything is
        deleted, so it does not depend on `yes`. */
    method Prune(ws: WorkingSet, yes: bool) returns (pruned: set<TagPath>, dropped: set<string>)
      modifies this
      ensures pruned == Pruned(old(tags), ws) && dropped == old(blobs) - Survivors(old(tags), pruned)
      ensures tags == (if yes then old(tags) - Gone(old(tags), pruned) else old(tags))
      ensures blobs == (if yes then old(blobs) - dropped else old(blobs))
    {
      pruned := PruneTargets(ws);
      var survivors := ReferencedBlobs(pruned);
      dropped := blobs - survivors;
      if yes {
        tags := tags - Gone(tags, pruned);
        blobs := blobs - dropped;
      }
    }
  }

  // ---- What a prune leaves -----------------------------------------------

  lemma SameName(p: TagPath, m: TagPath)
    requires |p| == 4 && p <= m
    ensures |m| >= 4 && TagName(m) == TagName(p)
  {
    assert m[1] == p[1] && m[2] == p[2] && m[3] == p[3];
  }

  lemma PrunedPath(tags: map<TagPath, Option<set<string>>>, ws: WorkingSet, p: TagPath)
    requires forall t | t in tags :: Components(t)
    requires p in Pruned(tags, ws)
    ensures |p| == 4 && TagName(p) !in ws.names
  {
    var t :| t in Listed(tags) && Prunable(tags, ws, t) && TagFile(t[0], TagName(t)) == p;
    TagFileKeepsTheName(t);
  }

  /** Nothing of the working set goes: a removed tag is listed under a name outside it. */
  lemma WorkingSetIsSpared(tags: map<TagPath, Option<set<string>>>, ws: WorkingSet, m: TagPath)
    requires forall t | t in tags :: Components(t)
    requires m in Gone(tags, Pruned(tags, ws))
    ensures |m| >= 4 && TagName(m) !in ws.names
  {
    var p :| p in Pruned(tags, ws) && p <= m;
    PrunedPath(tags, ws, p);
    SameName(p, m);
  }

  /** Every blob that a surviving readable tag names is kept. */
  lemma NamedBlobsAreKept(tags: map<TagPath, Option<set<string>>>, blobs: set<string>, ws: WorkingSet, m: TagPath, b: string)
    requires m in tags - Gone(tags, Pruned(tags, ws)) && tags[m].Some? && b in tags[m].value && b in blobs
    ensures b in blobs * Survivors(tags, Pruned(tags, ws))
  {
    assert m <= m;
  }

  /** The blobs that readable tags name. */
  function NamedBy(tags: map<TagPath, Option<set<string>>>): set<string> {
    Survivors(tags, {})
  }

  /** Every blob of a readable tag that goes with a removed directory is also named by a readable
      tag that stays. */
  predicate StraysShareTheirBlobs(tags: map<TagPath, Option<set<string>>>, pruned: set<TagPath>) {
    forall m | m in Gone(tags, pruned) - pruned && tags[m].Some? :: tags[m].value <= NamedBy(tags - Gone(tags, pruned))
  }

  lemma StayersSurvive(tags: map<TagPath, Option<set<string>>>, pruned: set<TagPath>)
    ensures NamedBy(tags - Gone(tags, pruned)) <= Survivors(tags, pruned)
  {
    var left := tags - Gone(tags, pruned);
    forall b | b in NamedBy(left)
      ensures b in Survivors(tags, pruned)
    {
      var m :| m in left && left[m].Some? && b in left[m].value;
      assert m <= m;
      assert m in tags && tags[m] == left[m] && m !in pruned;
    }
  }

  /** The blobs that are kept are exactly those that the surviving readable tags name if and only
      if the tags that go with a removed directory share theirs. */
  lemma KeptBlobsAreNamedIff(tags: map<TagPath, Option<set<string>>>, pruned: set<TagPath>)
    ensures Survivors(tags, pruned) == NamedBy(tags - Gone(tags, pruned)) <==> StraysShareTheirBlobs(tags, pruned)
  {
    var left := tags - Gone(tags, pruned);
    StayersSurvive(tags, pruned);
    if Survivors(tags, pruned) == NamedBy(left) {
      forall m | m in Gone(tags, pruned) - pruned && tags[m].Some?
        ensures tags[m].value <= NamedBy(left)
      {
        assert forall b | b in tags[m].value :: b in Survivors(tags, pruned);
      }
    }
    if StraysShareTheirBlobs(tags, pruned) {
      forall b | b in Survivors(tags, pruned)
        ensures b in NamedBy(left)
      {
        var m :| m in tags && m !in pruned && tags[m].Some? && b in tags[m].value;
        if m !in Gone(tags, pruned) { assert m in left && left[m] == tags[m]; }
      }
    }
  }

  /** No removed path is a directory with tags below it. */
  ghost predicate RemovesOnlyFiles(tags: map<TagPath, Option<set<string>>>, pruned: set<TagPath>) {
    forall m, p | m in tags && p in pruned && p <= m :: m == p
  }

  /** In particular when every removed path is a file. */
  lemma FilesLeaveNoStrays(tags: map<TagPath, Option<set<string>>>, pruned: set<TagPath>)
    requires RemovesOnlyFiles(tags, pruned)
    ensures Survivors(tags, pruned) == NamedBy(tags - Gone(tags, pruned))
  {
    assert Gone(tags, pruned) - pruned == {};
    KeptBlobsAreNamedIff(tags, pruned);
  }

  /** With four-part tags and no colon in a tag, a prune removes exactly the tags outside the
      working set, and every removed path is a file. */
  lemma PruneIsExact(tags: map<TagPath, Option<set<string>>>, ws: WorkingSet)
    requires forall m | m in tags :: |m| == 4 && Components(m) && ':' !in m[3]
    ensures Pruned(tags, ws) == set m | m in tags && TagName(m) !in ws.names
    ensures RemovesOnlyFiles(tags, Pruned(tags, ws)) && Gone(tags, Pruned(tags, ws)) == Pruned(tags, ws)
  {
    forall m | m in tags
      ensures TagFile(m[0], TagName(m)) == m
    {
      TagFileRoundTrips(m);
    }
    forall p | p in Pruned(tags, ws)
      ensures p in tags && TagName(p) !in ws.names
    {
      var m :| m in Listed(tags) && Prunable(tags, ws, m) && TagFile(m[0], TagName(m)) == p;
    }
    forall m | m in tags && TagName(m) !in ws.names
      ensures m in Pruned(tags, ws)
    {
      assert m <= m;
      assert m in Listed(tags) && Prunable(tags, ws, m) && TagFile(m[0], TagName(m)) == m;
    }
    forall m, p | m in tags && p in Pruned(tags, ws) && p <= m
      ensures m == p
    {
      assert |m| == |p|;
    }
  }

  lemma PrunedAlone(tags: map<TagPath, Option<set<string>>>, m: TagPath, short: TagPath)
    requires tags.Keys == {m} && |m| > 4 && short <= m && TagFile(m[0], TagName(m)) == short
    ensures Pruned(tags, WorkingSet({})) == {short}
  {
    assert m in Listed(tags) && Prunable(tags, WorkingSet({}), m);
  }

  /** A lone tag below a four-part path is removed with that directory. */
  lemma DeeperTagGoes(tags: map<TagPath, Option<set<string>>>, m: TagPath)
    requires tags.Keys == {m} && |m| > 4 && TagFile(m[0], TagName(m)) == m[..4]
    ensures Gone(tags, Pruned(tags, WorkingSet({}))) == {m}
  {
    PrunedAlone(tags, m, m[..4]);
    assert m[..4] in {m[..4]} && m[..4] <= m;
  }

  /** Its blobs stay behind, although no tag is left to name them. */
  lemma DeeperTagLeavesItsBlobs(tags: map<TagPath, Option<set<string>>>, m: TagPath)
    requires tags.Keys == {m} && tags[m].Some? && |m| > 4 && TagFile(m[0], TagName(m)) == m[..4]
    ensures tags[m].value <= Survivors(tags, Pruned(tags, WorkingSet({}))) && NamedBy(tags - {m}) == {}
  {
    PrunedAlone(tags, m, m[..4]);
    assert m !in {m[..4]};
    assert tags - {m} == map[];
  }

  /** Such a path: `r/library/llama/7b/x`. */
  lemma DeeperTagExists()
    ensures var m: TagPath := ["r", "library", "llama", "7b", "x"]; TagFile(m[0], TagName(m)) == m[..4]
  {
    var short, m: TagPath := ["r", "library", "llama", "7b"], ["r", "library", "llama", "7b", "x"];
    assert Components(short) && ':' !in short[3] && m[..4] == short;
    TagFileRoundTrips(short);
    SameName(short, m);
  }
}
