/** Recorded paths: manifests store the paths a workspace owns relative to it, and a reader
    resolves them from wherever the workspace has been moved to. */
module Workspaces {
  import opened Results

  const TOKEN := "${WS}"
  const TOKEN_PREFIX := "${WS}/"

  // ---- Paths -------------------------------------------------------------

  function Kept(component: string): seq<string> {
    if component == "" || component == "." then [] else [component]
  }

  /** The components of a path text: empty and "." ones do not count. */
  function Components(s: string, current: string): seq<string>
    decreases |s|
  {
    if s == "" then Kept(current)
    else if s[0] == '/' then Kept(current) + Components(s[1..], "")
    else Components(s[1..], current + [s[0]])
  }

  function Parts(s: string): seq<string> { Components(s, "") }

  function Join(parts: seq<string>): string {
    if parts == [] then "" else if |parts| == 1 then parts[0] else parts[0] + "/" + Join(parts[1..])
  }

  /** The text of an absolute path. */
  function Abs(parts: seq<string>): string { "/" + Join(parts) }

  /** The text of a relative path. */
  function Rel(parts: seq<string>): string { if parts == [] then "." else Join(parts) }

  predicate Component(c: string) {
    c != "" && c != "." && '/' !in c
  }

  predicate Normal(parts: seq<string>) {
    forall i | 0 <= i < |parts| :: Component(parts[i])
  }

  lemma {:induction false} ComponentsAreNormal(s: string, current: string)
    requires '/' !in current
    ensures Normal(Components(s, current))
    decreases |s|
  {
    if s != "" {
      if s[0] == '/' { ComponentsAreNormal(s[1..], ""); } else { ComponentsAreNormal(s[1..], current + [s[0]]); }
    }
  }

  /** Up to the next slash everything is one component. */
  lemma {:induction false} ComponentThenRest(c: string, current: string, s: string)
    requires '/' !in c
    ensures Components(c + "/" + s, current) == Kept(current + c) + Parts(s)
    ensures Components(c, current) == Kept(current + c)
  {
    if c == "" {
      assert c + "/" + s == "/" + s && ("/" + s)[1..] == s && current + c == current;
    } else {
      assert (c + "/" + s)[1..] == c[1..] + "/" + s;
      assert (current + [c[0]]) + c[1..] == current + c;
      ComponentThenRest(c[1..], current + [c[0]], s);
    }
  }

  lemma {:induction false} PartsOfJoin(parts: seq<string>)
    requires Normal(parts)
    ensures Parts(Join(parts)) == parts
  {
    if |parts| == 1 {
      ComponentThenRest(parts[0], "", "");
      assert "" + parts[0] == parts[0];
    } else if parts != [] {
      PartsOfJoin(parts[1..]);
      ComponentThenRest(parts[0], "", Join(parts[1..]));
      assert "" + parts[0] == parts[0] && parts == [parts[0]] + parts[1..];
    }
  }

  lemma FirstComponent(c: string, s: string)
    requires Component(c)
    ensures Parts(c + "/" + s) == [c] + Parts(s)
  {
    ComponentThenRest(c, "", s);
    assert "" + c == c;
  }

  lemma {:induction false} JoinThenRest(parts: seq<string>, s: string)
    requires Normal(parts) && parts != []
    ensures Parts(Join(parts) + "/" + s) == parts + Parts(s)
  {
    if |parts| == 1 {
      FirstComponent(parts[0], s);
      assert parts == [parts[0]];
    } else {
      var tail := Join(parts[1..]) + "/" + s;
      JoinThenRest(parts[1..], s);
      FirstComponent(parts[0], tail);
      assert Join(parts) + "/" + s == parts[0] + "/" + tail;
      assert parts == [parts[0]] + parts[1..];
    }
  }

  lemma PartsOfRel(parts: seq<string>)
    requires Normal(parts)
    ensures Parts(Rel(parts)) == parts
    ensures Rel(parts) != "" && Rel(parts)[0] != '/'
  {
    PartsOfJoin(parts);
    if parts != [] { JoinStarts(parts); } else { ComponentThenRest(".", "", ""); }
  }

  lemma JoinStarts(parts: seq<string>)
    requires Normal(parts) && parts != []
    ensures Join(parts) != "" && Join(parts)[0] == parts[0][0] && parts[0][0] != '/'
  {
    assert parts[0][0] in parts[0];
  }

  lemma {:induction false} JoinConcat(a: seq<string>, b: seq<string>)
    requires a != [] && b != []
    ensures Join(a + b) == Join(a) + "/" + Join(b)
  {
    assert (a + b)[0] == a[0] && (a + b)[1..] == a[1..] + b;
    if |a| > 1 {
      JoinConcat(a[1..], b);
    } else {
      assert a[1..] + b == b;
    }
  }

  // ---- The writer --------------------------------------------------------

  /** The path text names something below the root. */
  predicate Under(root: seq<string>, s: string) {
    Abs(root) + "/" <= s
  }

  function Below(root: seq<string>, s: string): string
    requires Under(root, s)
  {
    s[|Abs(root)| + 1..]
  }

  /** What is recorded for a path text: the token form if the workspace owns it. */
  function Recorded(root: seq<string>, s: string): string {
    if s == Abs(root) then TOKEN
    else if Under(root, s) && |root| <= |Parts(s)| then TOKEN_PREFIX + Rel(Parts(s)[|root|..])
    else s
  }

  lemma OwnedParts(root: seq<string>, s: string)
    requires Normal(root) && root != [] && Under(root, s)
    ensures Parts(s) == root + Parts(Below(root, s))
  {
    assert s == "/" + (Join(root) + "/" + Below(root, s));
    assert s[1..] == Join(root) + "/" + Below(root, s);
    assert Parts(s) == Kept("") + Parts(s[1..]);
    JoinThenRest(root, Below(root, s));
  }

  lemma OwnedIsRecordedBelow(root: seq<string>, s: string)
    requires Normal(root) && root != [] && Under(root, s)
    ensures Recorded(root, s) == TOKEN_PREFIX + Rel(Parts(Below(root, s)))
  {
    OwnedParts(root, s);
    assert Parts(s)[|root|..] == Parts(Below(root, s));
    assert |s| > |Abs(root)|;
  }

  // ---- The reader --------------------------------------------------------

  predicate IsToken(s: string) {
    s == TOKEN || TOKEN_PREFIX <= s
  }

  /** Joining an absolute path replaces; exactly two leading slashes are kept. */
  function Joined(base: seq<string>, rel: string): string {
    if rel != "" && rel[0] == '/' then
      (if |rel| >= 2 && rel[1] == '/' && !(|rel| >= 3 && rel[2] == '/') then "/" else "") + Abs(Parts(rel))
    else Abs(base + Parts(rel))
  }

  /** Where files are found: the manifest's own workspace, and the one active otherwise. */
  datatype Disk = Disk(present: string -> bool, active: Option<seq<string>>)

  function Resolved(primary: seq<string>, disk: Disk, s: string): string {
    if s == TOKEN then Abs(primary)
    else if TOKEN_PREFIX <= s then
      var rel := s[|TOKEN_PREFIX|..];
      var candidate := Joined(primary, rel);
      if disk.present(candidate) then candidate
      else if disk.active.Some? && disk.present(Joined(disk.active.value, rel)) then Joined(disk.active.value, rel)
      else candidate
    else s
  }

  // ---- Trees -------------------------------------------------------------

  datatype Tree = Text(text: string) | Scalar(value: int) | Items(items: seq<Tree>) | Fields(fields: seq<(string, Tree)>)

  /** Every text in the tree rewritten; keys and everything else stay. */
  function MapText(t: Tree, f: string -> string): Tree
    decreases t
  {
    match t
    case Text(s) => Text(f(s))
    case Scalar(_) => t
    case Items(items) => Items(seq(|items|, i requires 0 <= i < |items| => MapText(items[i], f)))
    case Fields(fields) => Fields(seq(|fields|, i requires 0 <= i < |fields| => (fields[i].0, MapText(fields[i].1, f))))
  }

  predicate Holds(t: Tree, s: string)
    decreases t
  {
    match t
    case Text(x) => x == s
    case Scalar(_) => false
    case Items(items) => exists i | 0 <= i < |items| :: Holds(items[i], s)
    case Fields(fields) => exists i | 0 <= i < |fields| :: Holds(fields[i].1, s)
  }

  function Relativized(t: Tree, root: Option<seq<string>>): Tree {
    if root.None? then t else MapText(t, s => Recorded(root.value, s))
  }

  function ResolvedTree(t: Tree, primary: seq<string>, disk: Disk): Tree {
    MapText(t, s => Resolved(primary, disk, s))
  }

  lemma {:induction false} MapTwice(t: Tree, f: string -> string, g: string -> string, h: string -> string)
    requires forall s :: Holds(t, s) ==> g(f(s)) == h(s)
    ensures MapText(MapText(t, f), g) == MapText(t, h)
    decreases t
  {
    match t
    case Text(x) => assert Holds(t, x);
    case Scalar(_) =>
    case Items(items) =>
      forall i | 0 <= i < |items|
        ensures MapText(MapText(items[i], f), g) == MapText(items[i], h)
      {
        assert forall s :: Holds(items[i], s) ==> Holds(t, s);
        MapTwice(items[i], f, g, h);
      }
    case Fields(fields) =>
      forall i | 0 <= i < |fields|
        ensures MapText(MapText(fields[i].1, f), g) == MapText(fields[i].1, h)
      {
        assert forall s :: Holds(fields[i].1, s) ==> Holds(t, s);
        MapTwice(fields[i].1, f, g, h);
      }
  }

  lemma {:induction false} MapSameIff(t: Tree, f: string -> string)
    ensures MapText(t, f) == t <==> forall s :: Holds(t, s) ==> f(s) == s
    decreases t
  {
    match t
    case Text(x) => assert Holds(t, x);
    case Scalar(_) =>
    case Items(items) =>
      forall i | 0 <= i < |items|
        ensures MapText(items[i], f) == items[i] <==> forall s :: Holds(items[i], s) ==> f(s) == s
      {
        MapSameIff(items[i], f);
      }
      var mapped := MapText(t, f).items;
      assert mapped == items <==> forall i | 0 <= i < |items| :: mapped[i] == items[i];
    case Fields(fields) =>
      forall i | 0 <= i < |fields|
        ensures MapText(fields[i].1, f) == fields[i].1 <==> forall s :: Holds(fields[i].1, s) ==> f(s) == s
      {
        MapSameIff(fields[i].1, f);
      }
      var mapped := MapText(t, f).fields;
      assert mapped == fields <==> forall i | 0 <= i < |fields| :: mapped[i] == fields[i];
  }

  // ---- Relocation --------------------------------------------------------

  /** The workspace in which an owned file is looked for: the manifest's own, unless the file is
      only there in the active one. */
  function Home(primary: seq<string>, disk: Disk, rest: seq<string>): seq<string> {
    if disk.active.Some? && disk.present(Abs(disk.active.value + rest)) && !disk.present(Abs(primary + rest))
    then disk.active.value else primary
  }

  /** What moving the workspace from root to primary makes of a text: owned paths go to where they
      are found, recorded tokens are resolved, and anything else stays. */
  function Moved(root: seq<string>, primary: seq<string>, disk: Disk, s: string): string {
    if s == Abs(root) then Abs(primary)
    else if Under(root, s) then
      var rest := Parts(Below(root, s));
      Abs(Home(primary, disk, rest) + rest)
    else if IsToken(s) then Resolved(primary, disk, s)
    else s
  }

  lemma TextMoves(root: seq<string>, primary: seq<string>, disk: Disk, s: string)
    requires Normal(root) && root != []
    ensures Resolved(primary, disk, Recorded(root, s)) == Moved(root, primary, disk, s)
  {
    if s == Abs(root) {
    } else if Under(root, s) {
      OwnedIsRecordedBelow(root, s);
      var rel := Rel(Parts(Below(root, s)));
      ComponentsAreNormal(Below(root, s), "");
      PartsOfRel(Parts(Below(root, s)));
      assert (TOKEN_PREFIX + rel)[|TOKEN_PREFIX|..] == rel;
      assert (TOKEN_PREFIX + rel)[|TOKEN|] == '/';
    }
  }

  /** A tree recorded under one root and read from a manifest under another, on any disk: owned
      paths go to where they are found, tokens are resolved, everything else stays. */
  lemma TreesMove(t: Tree, root: seq<string>, primary: seq<string>, disk: Disk)
    requires Normal(root) && root != []
    ensures ResolvedTree(Relativized(t, Some(root)), primary, disk) == MapText(t, s => Moved(root, primary, disk, s))
  {
    forall s | Holds(t, s)
      ensures Resolved(primary, disk, Recorded(root, s)) == Moved(root, primary, disk, s)
    {
      TextMoves(root, primary, disk, s);
    }
    MapTwice(t, s => Recorded(root, s), s => Resolved(primary, disk, s), s => Moved(root, primary, disk, s));
  }

  /** An owned path that is recorded and read elsewhere is found if it is in the manifest's
      workspace or in the active one, the former first. */
  lemma OwnedPathsAreFound(root: seq<string>, primary: seq<string>, disk: Disk, s: string)
    requires Normal(root) && root != [] && Under(root, s) && s != Abs(root)
    ensures var rest := Parts(Below(root, s)); var read := Resolved(primary, disk, Recorded(root, s));
            && (disk.present(read) <==>
                  disk.present(Abs(primary + rest)) || (disk.active.Some? && disk.present(Abs(disk.active.value + rest))))
            && (disk.present(Abs(primary + rest)) || !disk.present(read) ==> read == Abs(primary + rest))
  {
    TextMoves(root, primary, disk, s);
  }

  /** A root's text in front of a slash. */
  function Stem(root: seq<string>): string { if root == [] then "" else Abs(root) }

  /** A normalized owned path has its root replaced and nothing else changed. */
  lemma NormalizedPathsKeepTheirRest(root: seq<string>, primary: seq<string>, disk: Disk, rest: seq<string>)
    returns (tail: string)
    requires Normal(root) && root != [] && Normal(rest)
    ensures Abs(root + rest) == Abs(root) + tail
    ensures Moved(root, primary, disk, Abs(root + rest)) ==
            if rest == [] then Abs(primary) else Stem(Home(primary, disk, rest)) + tail
  {
    if rest == [] {
      tail := "";
      assert root + rest == root;
    } else {
      tail := "/" + Join(rest);
      JoinedBelow(root, rest);
      var home := Home(primary, disk, rest);
      if home == [] { assert home + rest == rest; } else { JoinConcat(home, rest); }
      assert Abs(home + rest) == Stem(home) + tail;
    }
  }

  lemma JoinedBelow(root: seq<string>, rest: seq<string>)
    requires root != [] && rest != [] && Normal(rest)
    ensures var s := Abs(root + rest);
            && s == Abs(root) + ("/" + Join(rest)) && s != Abs(root)
            && Under(root, s) && Parts(Below(root, s)) == rest
  {
    JoinConcat(root, rest);
    PartsOfJoin(rest);
    SplitsAt(Abs(root), Join(rest));
    assert Abs(root + rest) == Abs(root) + ("/" + Join(rest));
  }

  lemma SplitsAt(a: string, b: string)
    ensures var s := a + ("/" + b); a + "/" <= s && s[|a| + 1..] == b && s != a
  {
    assert |a + ("/" + b)| > |a|;
  }

  /** The text survives being recorded and read in place. */
  predicate Survives(root: seq<string>, s: string) {
    !IsToken(s) && (Under(root, s) ==> s == Abs(Parts(s)))
  }

  lemma TextSurvivesIff(root: seq<string>, disk: Disk, s: string)
    requires Normal(root) && root != [] && (disk.active.None? || disk.active.value == root)
    ensures Resolved(root, disk, Recorded(root, s)) == s <==> Survives(root, s)
  {
    TextMoves(root, root, disk, s);
    if Under(root, s) {
      OwnedParts(root, s);
      assert |s| > |Abs(root)| && s[0] == '/';
    } else if IsToken(s) {
      assert s[0] == '$' && Resolved(root, disk, s)[0] == '/';
      assert Abs(root)[0] == '/';
    } else {
      assert s == Abs(root) ==> s[0] == '/';
    }
  }

  /** Read back in place, a tree is unchanged exactly when its texts are neither tokens nor
      unnormalized owned paths. */
  lemma RoundTripsIff(t: Tree, root: seq<string>, disk: Disk)
    requires Normal(root) && root != [] && (disk.active.None? || disk.active.value == root)
    ensures ResolvedTree(Relativized(t, Some(root)), root, disk) == t <==> forall s :: Holds(t, s) ==> Survives(root, s)
  {
    TreesMove(t, root, root, disk);
    var f := s => Moved(root, root, disk, s);
    MapSameIff(t, f);
    forall s
      ensures f(s) == s <==> Survives(root, s)
    {
      TextMoves(root, root, disk, s);
      TextSurvivesIff(root, disk, s);
    }
  }

  /** Recording what is recorded already changes nothing. */
  lemma RecordingTwiceIsOnce(t: Tree, root: seq<string>)
    ensures Relativized(Relativized(t, Some(root)), Some(root)) == Relativized(t, Some(root))
  {
    forall s | Holds(t, s)
      ensures Recorded(root, Recorded(root, s)) == Recorded(root, s)
    {
      if Recorded(root, s) != s {
        assert Recorded(root, s)[0] == '$' && Abs(root)[0] == '/' && (Abs(root) + "/")[0] == '/';
      }
    }
    MapTwice(t, s => Recorded(root, s), s => Recorded(root, s), s => Recorded(root, s));
  }

  /** A trailing slash is lost, and a text that looks like a token comes back as a path. */
  lemma SomeTextsDoNotSurvive()
    ensures !Survives(["w"], "/w/a/") && !Survives(["w"], "${WS}/a")
  {
    var s := "/w/a/";
    assert Abs(["w"]) == "/w" && s[..3] == "/w/";
    assert Abs(["w"]) + "/" <= s;
    ComponentsAreNormal(s, "");
    var p := Parts(s);
    if s == Abs(p) { NoTrailingSlash(p); }
    assert "${WS}/a"[..6] == TOKEN_PREFIX;
  }

  lemma {:induction false} NoTrailingSlash(parts: seq<string>)
    requires Normal(parts) && parts != []
    ensures Join(parts) != "" && Join(parts)[|Join(parts)| - 1] != '/'
  {
    if |parts| > 1 {
      NoTrailingSlash(parts[1..]);
    } else {
      assert parts[0][|parts[0]| - 1] in parts[0];
    }
  }
}
