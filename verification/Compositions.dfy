/** Compositions: nodes whose keyword arguments name other nodes' results, the dependency
    graph those references derive, and the binding of the references to recorded results. */
module Compositions {
  import opened Results
  import opened Graphs

  // ---- The composition ---------------------------------------------------

  /** A member's result: a dict is read by key, anything else by attribute. */
  datatype Value = Dict(entries: map<string, Value>) | Other(repr: string, attrs: map<string, Value>)

  datatype Arg = Static(value: Value) | OutputRef(node: Id, field: Option<string>)

  /** `kwargs` keeps the insertion order of the source's dict. */
  datatype Node = Node(id: Id, kwargs: seq<(string, Arg)>)

  datatype Composition = Composition(nodes: seq<Node>, failFast: bool)

  /** Derived from the top-level argument values only. */
  function NodeDependencies(n: Node): set<Id> {
    set i | 0 <= i < |n.kwargs| && n.kwargs[i].1.OutputRef? :: n.kwargs[i].1.node
  }

  function IdsOf(nodes: seq<Node>): set<Id> {
    set i | 0 <= i < |nodes| :: nodes[i].id
  }

  predicate Repeated(nodes: seq<Node>, id: Id) {
    exists i, j | 0 <= i < j < |nodes| :: nodes[i].id == id && nodes[j].id == id
  }

  predicate UniqueIds(nodes: seq<Node>) {
    forall i, j | 0 <= i < j < |nodes| :: nodes[i].id != nodes[j].id
  }

  predicate KnownRefs(nodes: seq<Node>) {
    forall i | 0 <= i < |nodes| :: NodeDependencies(nodes[i]) <= IdsOf(nodes)
  }

  /** The derived dependency map. */
  function GraphOf(nodes: seq<Node>): (g: Graph)
    ensures g.Keys == IdsOf(nodes)
  {
    if nodes == [] then map[]
    else
      var last := nodes[|nodes| - 1];
      GraphOf(nodes[..|nodes| - 1])[last.id := NodeDependencies(last)]
  }

  lemma {:induction false} GraphOfNode(nodes: seq<Node>, i: nat)
    requires UniqueIds(nodes) && i < |nodes|
    ensures GraphOf(nodes)[nodes[i].id] == NodeDependencies(nodes[i])
  {
    if i < |nodes| - 1 {
      GraphOfNode(nodes[..|nodes| - 1], i);
    }
  }

  lemma GraphOfClosed(nodes: seq<Node>)
    requires UniqueIds(nodes) && KnownRefs(nodes)
    ensures Closed(GraphOf(nodes))
  {
    forall n | n in GraphOf(nodes)
      ensures GraphOf(nodes)[n] <= GraphOf(nodes).Keys
    {
      var i :| 0 <= i < |nodes| && nodes[i].id == n;
      GraphOfNode(nodes, i);
    }
  }

  // ---- Execution-time binding --------------------------------------------

  datatype BindingError = NotRecorded(producer: Id) | MissingField(producer: Id, field: string)

  /** Dicts resolve by key, everything else by attribute; no field binds the whole result. */
  function ExtractOutputField(result: Value, field: Option<string>, producer: Id): Result<Value, BindingError> {
    match field
    case None => Ok(result)
    case Some(f) =>
      var named := if result.Dict? then result.entries else result.attrs;
      if f in named then Ok(named[f]) else Err(MissingField(producer, f))
  }

  function BindArg(a: Arg, results: map<Id, Value>): Result<Value, BindingError> {
    match a
    case Static(v) => Ok(v)
    case OutputRef(node, field) =>
      if node !in results then Err(NotRecorded(node)) else ExtractOutputField(results[node], field, node)
  }

  /** Every argument bound, or the error of the first that does not bind. */
  function Bind(kwargs: seq<(string, Arg)>, results: map<Id, Value>): Result<map<string, Value>, BindingError> {
    if kwargs == [] then Ok(map[])
    else
      var (k, a) := kwargs[|kwargs| - 1];
      match Bind(kwargs[..|kwargs| - 1], results)
      case Err(e) => Err(e)
      case Ok(resolved) =>
        match BindArg(a, results)
        case Err(e) => Err(e)
        case Ok(v) => Ok(resolved[k := v])
  }

  /** The fields a result has: keys of a dict, attributes of anything else. */
  function FieldsOf(result: Value): map<string, Value> {
    match result
    case Dict(entries) => entries
    case Other(_, attrs) => attrs
  }

  /** What the argument is to deliver: itself, its producer's whole result, or one field of it. */
  predicate Delivers(a: Arg, results: map<Id, Value>, v: Value) {
    match a
    case Static(value) => v == value
    case OutputRef(p, None) => p in results && v == results[p]
    case OutputRef(p, Some(f)) => p in results && f in FieldsOf(results[p]) && v == FieldsOf(results[p])[f]
  }

  /** Why the argument cannot be bound: its producer has no result, or the result lacks the field. */
  predicate Lacks(a: Arg, results: map<Id, Value>, e: BindingError) {
    && a.OutputRef?
    && if a.node !in results then e == NotRecorded(a.node)
       else a.field.Some? && a.field.value !in FieldsOf(results[a.node]) && e == MissingField(a.node, a.field.value)
  }

  ghost predicate NothingLacks(kwargs: seq<(string, Arg)>, results: map<Id, Value>) {
    forall i, e | 0 <= i < |kwargs| :: !Lacks(kwargs[i].1, results, e)
  }

  /** The argument at i is the last of its name. */
  predicate LastOfName(kwargs: seq<(string, Arg)>, i: nat) {
    i < |kwargs| && forall j | i < j < |kwargs| :: kwargs[j].0 != kwargs[i].0
  }

  /** What binding is to do: every name carries what the last argument of that name delivers; it
      fails exactly when an argument lacks something, with what the first such argument lacks. */
  ghost predicate BindsAsAsked(kwargs: seq<(string, Arg)>, results: map<Id, Value>,
                               r: Result<map<string, Value>, BindingError>) {
    match r
    case Ok(bound) =>
      && NothingLacks(kwargs, results)
      && (forall k :: k in bound <==> exists i :: 0 <= i < |kwargs| && kwargs[i].0 == k)
      && (forall i: nat | LastOfName(kwargs, i) ::
            kwargs[i].0 in bound && Delivers(kwargs[i].1, results, bound[kwargs[i].0]))
    case Err(e) =>
      exists i :: 0 <= i < |kwargs| && Lacks(kwargs[i].1, results, e) && NothingLacks(kwargs[..i], results)
  }

  lemma ArgBinds(a: Arg, results: map<Id, Value>)
    ensures BindArg(a, results).Ok? ==>
              Delivers(a, results, BindArg(a, results).value) && forall e :: !Lacks(a, results, e)
    ensures BindArg(a, results).Err? ==> Lacks(a, results, BindArg(a, results).error)
  {
  }

  lemma BindMeans(kwargs: seq<(string, Arg)>, results: map<Id, Value>)
    ensures BindsAsAsked(kwargs, results, Bind(kwargs, results))
  {
    forall i | 0 <= i < |kwargs|
      ensures BindArg(kwargs[i].1, results).Ok? ==> forall e :: !Lacks(kwargs[i].1, results, e)
    {
      ArgBinds(kwargs[i].1, results);
    }
    BindSucceeds(kwargs, results);
    match Bind(kwargs, results)
    case Ok(bound) =>
      BindOnlyNames(kwargs, results);
      forall i: nat | LastOfName(kwargs, i)
        ensures kwargs[i].0 in bound && Delivers(kwargs[i].1, results, bound[kwargs[i].0])
      {
        BindLastWins(kwargs, results, i);
        ArgBinds(kwargs[i].1, results);
      }
    case Err(e) =>
      var i := BindFirstError(kwargs, results);
      ArgBinds(kwargs[i].1, results);
      assert forall j | 0 <= j < i :: kwargs[..i][j] == kwargs[j];
  }

  /** Exactly the named arguments are bound. */
  lemma {:induction false} BindOnlyNames(kwargs: seq<(string, Arg)>, results: map<Id, Value>)
    requires Bind(kwargs, results).Ok?
    ensures forall k :: k in Bind(kwargs, results).value <==> exists i :: 0 <= i < |kwargs| && kwargs[i].0 == k
  {
    if kwargs != [] {
      var front := kwargs[..|kwargs| - 1];
      BindOnlyNames(front, results);
      forall k
        ensures k in Bind(kwargs, results).value <==> exists i :: 0 <= i < |kwargs| && kwargs[i].0 == k
      {
        if i :| 0 <= i < |kwargs| && kwargs[i].0 == k { assert i < |front| ==> front[i].0 == k; }
        if i :| 0 <= i < |front| && front[i].0 == k { assert kwargs[i].0 == k; }
        assert k == kwargs[|kwargs| - 1].0 ==> kwargs[|kwargs| - 1].0 == k;
      }
    }
  }

  method ResolveNodeKwargs(node: Node, results: map<Id, Value>) returns (r: Result<map<string, Value>, BindingError>)
    ensures r == Bind(node.kwargs, results) && BindsAsAsked(node.kwargs, results, r)
  {
    BindMeans(node.kwargs, results);
    var resolved: map<string, Value> := map[];
    for i := 0 to |node.kwargs|
      invariant Bind(node.kwargs[..i], results) == Ok(resolved)
    {
      var (k, a) := node.kwargs[i];
      assert node.kwargs[..i + 1][..i] == node.kwargs[..i];
      var bound := BindArg(a, results);
      if bound.Err? {
        BindFailsEarly(node.kwargs, results, i + 1);
        return Err(bound.error);
      }
      resolved := resolved[k := bound.value];
    }
    assert node.kwargs[..|node.kwargs|] == node.kwargs;
    return Ok(resolved);
  }

  lemma {:induction false} BindFailsEarly(kwargs: seq<(string, Arg)>, results: map<Id, Value>, i: nat)
    requires i <= |kwargs| && Bind(kwargs[..i], results).Err?
    ensures Bind(kwargs, results) == Bind(kwargs[..i], results)
  {
    if i == |kwargs| {
      assert kwargs[..i] == kwargs;
    } else {
      var front := kwargs[..|kwargs| - 1];
      assert front[..i] == kwargs[..i];
      BindFailsEarly(front, results, i);
    }
  }

  predicate AllBind(kwargs: seq<(string, Arg)>, results: map<Id, Value>) {
    forall i | 0 <= i < |kwargs| :: BindArg(kwargs[i].1, results).Ok?
  }

  /** Binding succeeds exactly when every argument binds. */
  lemma {:induction false} BindSucceeds(kwargs: seq<(string, Arg)>, results: map<Id, Value>)
    ensures Bind(kwargs, results).Ok? <==> AllBind(kwargs, results)
  {
    if kwargs != [] {
      var front := kwargs[..|kwargs| - 1];
      BindSucceeds(front, results);
      assert forall i | 0 <= i < |front| :: kwargs[i] == front[i];
    }
  }

  /** Each name is bound to the value of the last argument of that name. */
  lemma {:induction false} BindLastWins(kwargs: seq<(string, Arg)>, results: map<Id, Value>, i: nat)
    requires Bind(kwargs, results).Ok? && i < |kwargs|
    requires forall j | i < j < |kwargs| :: kwargs[j].0 != kwargs[i].0
    ensures BindArg(kwargs[i].1, results).Ok? && kwargs[i].0 in Bind(kwargs, results).value
    ensures Bind(kwargs, results).value[kwargs[i].0] == BindArg(kwargs[i].1, results).value
  {
    if i < |kwargs| - 1 {
      BindLastWins(kwargs[..|kwargs| - 1], results, i);
    }
  }

  /** A failed binding names the first argument that does not bind. */
  lemma {:induction false} BindFirstError(kwargs: seq<(string, Arg)>, results: map<Id, Value>) returns (i: nat)
    requires Bind(kwargs, results).Err?
    ensures i < |kwargs| && AllBind(kwargs[..i], results)
    ensures BindArg(kwargs[i].1, results).Err?
    ensures BindArg(kwargs[i].1, results).error == Bind(kwargs, results).error
  {
    var front := kwargs[..|kwargs| - 1];
    if Bind(front, results).Err? {
      i := BindFirstError(front, results);
      assert kwargs[..i] == front[..i];
    } else {
      i := |kwargs| - 1;
      BindSucceeds(front, results);
    }
  }

  /** Binding reads the results of the node's dependencies and no others. */
  lemma {:induction false} BindReadsDependencies(kwargs: seq<(string, Arg)>, a: map<Id, Value>, b: map<Id, Value>)
    requires forall i | 0 <= i < |kwargs| && kwargs[i].1.OutputRef? ::
               var p := kwargs[i].1.node; p in a && p in b && a[p] == b[p]
    ensures Bind(kwargs, a) == Bind(kwargs, b)
    ensures Bind(kwargs, a).Err? ==> Bind(kwargs, a).error.MissingField?
  {
    if kwargs != [] {
      BindReadsDependencies(kwargs[..|kwargs| - 1], a, b);
    }
  }
}
