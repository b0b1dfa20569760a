/** Redacting and merging in place: one walk over a node graph held in an array,
    with the sets and maps it fills as it goes. */
module ConfigEditor {
  import opened Transcript
  import opened YamlWalk
  import opened ConfigRedaction
  import opened ConfigRecovery

  class Editor {
    const h: array<Node>
    var visited: set<nat>
    var seen: set<string>
    var literal: set<nat>
    var escaped: bool
    var needsMerge: bool
    var found: map<string, Node>

    constructor (graph: array<Node>)
      ensures h == graph && visited == {} && Context() == Begin(graph[..])
    {
      h := graph;
      visited, seen, literal, escaped, needsMerge, found := {}, {}, {}, false, false, map[];
    }

    ghost function Context(): Ctx
      reads this, h
    {
      Ctx(h[..], seen, literal, escaped, needsMerge, found)
    }

    /** scalarEnvironmentValue: follow aliases to a scalar. */
    method ScalarEnvironmentValue(value: nat) returns (s: Option<nat>)
      requires value < h.Length && Parsed(h[..])
      ensures s == ScalarOf(h[..], value)
    {
      var node, aliases := Some(value), {};
      while node.Some? && h[node.value].kind.Alias?
        invariant node.Some? ==> node.value < h.Length
        invariant aliases == {} ==> node == Some(value)
        invariant aliases != {} ==> h[value].kind.Alias? && node == h[value].alias && (node.Some? ==> Anchored(h[..], node.value))
        decreases if aliases == {} then 1 else 0
      {
        assert aliases == {};
        if node.value in aliases { return None; }
        aliases := aliases + {node.value};
        node := h[node.value].alias;
      }
      if node.None? || !h[node.value].kind.Scalar? { return None; }
      return node;
    }

    /** One visit: refuse a key seen before, then do what the pass asks. */
    method Visit(pass: Pass, key: string, value: nat) returns (ok: bool)
      requires value < h.Length && Parsed(h[..])
      modifies this, h
      ensures visited == old(visited)
      ensures match YamlWalk.Visit(pass, old(Context()), key, value)
        case Fine(c) => ok && Context() == c
        case Bad => !ok
    {
      if key in seen { return false; }
      seen := seen + {key};
      var found' := ScalarEnvironmentValue(value);
      if found'.None? { return false; }
      var s := found'.value;
      match pass {
        case Redact =>
          h[s] := h[s].(kind := Scalar, tag := STRING_TAG, value := REDACTED, style := DoubleQuoted);
        case Scan =>
          if s in literal { return true; }
          if h[s].tag == LITERAL_TAG {
            if h[s].value != REDACTED { return false; }
            h[s] := h[s].(tag := STRING_TAG, style := DoubleQuoted);
            literal := literal + {s};
            escaped := true;
            return true;
          }
          if h[s].value == REDACTED { needsMerge := true; }
        case Collect =>
          found := found[key := h[s]];
        case Restore(existing) =>
          if s in literal || h[s].value != REDACTED { return true; }
          if key !in existing { return false; }
          h[s] := existing[key];
      }
      return true;
    }

    /** walkEnvironmentVariableNode */
    method WalkNode(pass: Pass, node: nat) returns (ok: bool)
      requires node < h.Length && Parsed(h[..]) && GoodPass(pass)
      modifies this, h
      ensures Did(Walk(pass, old(visited), old(Context()), node), ok)
      decreases Unvisited(visited, h[..]), if h[node].kind.Alias? then 1 else 0
    {
      var n := h[node];
      if n.kind.Alias? {
        if n.alias.None? { return false; }
        ok := WalkNode(pass, n.alias.value);
        return;
      }
      if node in visited { return true; }
      assert node in Unvisited(visited, h[..]);
      visited := visited + {node};
      match n.kind {
        case Mapping => ok := WalkMapping(pass, n.content);
        case Sequence => ok := WalkSequence(pass, n.content);
        case _ => return false;
      }
    }

    /** The editor went where the walk says, and says whether it went through. */
    ghost predicate Did(w: Walked, ok: bool)
      reads this, h
    {
      match w
      case Good(v, c) => ok && visited == v && Context() == c
      case Failed => !ok
    }

    method WalkMapping(pass: Pass, content: seq<nat>) returns (ok: bool)
      requires Parsed(h[..]) && GoodPass(pass) && forall k | 0 <= k < |content| :: content[k] < h.Length
      modifies this, h
      ensures Did(WalkPairs(pass, old(visited), old(Context()), content, 0), ok)
      decreases Unvisited(visited, h[..]), 3
    {
      var i := 0;
      while i + 1 < |content|
        invariant i <= |content| && Parsed(h[..])
        invariant Unvisited(visited, h[..]) <= old(Unvisited(visited, h[..]))
        invariant WalkPairs(pass, visited, Context(), content, i) == WalkPairs(pass, old(visited), old(Context()), content, 0)
      {
        ghost var was, before := visited, Context();
        ok := WalkPair(pass, content[i], content[i + 1], |content| - i);
        if !ok { return; }
        assert Unvisited(visited, h[..]) <= Unvisited(was, before.h);
        i := i + 2;
      }
      return true;
    }

    /** A merge key leads on; any other key is visited. */
    method WalkPair(pass: Pass, keyNode: nat, value: nat, ghost rank: nat) returns (ok: bool)
      requires Parsed(h[..]) && GoodPass(pass) && keyNode < h.Length && value < h.Length && rank > 0
      modifies this, h
      ensures Did(WalkEntry(pass, old(visited), old(Context()), old(h[keyNode]), value, rank), ok)
      decreases Unvisited(visited, h[..]), 2
    {
      var key := h[keyNode];
      if key.tag == "!!merge" || key.value == "<<" {
        ok := WalkNode(pass, value);
      } else {
        VisitShape(pass, Context(), key.value, value);
        ok := Visit(pass, key.value, value);
      }
    }

    method WalkSequence(pass: Pass, content: seq<nat>) returns (ok: bool)
      requires Parsed(h[..]) && GoodPass(pass) && forall k | 0 <= k < |content| :: content[k] < h.Length
      modifies this, h
      ensures Did(WalkItems(pass, old(visited), old(Context()), content, 0), ok)
      decreases Unvisited(visited, h[..]), 3
    {
      var i := 0;
      while i < |content|
        invariant i <= |content| && Parsed(h[..])
        invariant Unvisited(visited, h[..]) <= old(Unvisited(visited, h[..]))
        invariant WalkItems(pass, visited, Context(), content, i) == WalkItems(pass, old(visited), old(Context()), content, 0)
      {
        ghost var was, before := visited, Context();
        ok := WalkNode(pass, content[i]);
        if !ok { return; }
        assert Unvisited(visited, h[..]) <= Unvisited(was, before.h);
        i := i + 1;
      }
      return true;
    }
  }

  /** RedactAgentConfig on a parsed document: the graph is redacted in place. */
  method Redact(graph: array<Node>, root: Option<nat>) returns (ok: bool)
    requires GoodDoc(Doc(graph[..], root))
    modifies graph
    ensures var before := Doc(old(graph[..]), root);
      && ok == RedactConfig(before).Ok?
      && (ok ==> RedactConfig(before) == Ok(Doc(graph[..], root)))
  {
    var variables := FindVariables(graph, root);
    if variables.Malformed? { return false; }
    if variables.NoVariables? { return true; }
    var editor := new Editor(graph);
    ok := editor.WalkNode(Pass.Redact, variables.node);
  }

  /** parseEnvironmentVariables, from the parsed nodes on. */
  method FindVariables(graph: array<Node>, root: Option<nat>) returns (r: Variables)
    requires GoodDoc(Doc(graph[..], root))
    ensures r == EnvironmentVariables(Doc(graph[..], root))
  {
    if root.None? { return NoVariables; }
    var environment := FindMappingValue(graph, root.value, "environment");
    if environment.Duplicate? { return Malformed; }
    if environment.Absent? { return NoVariables; }
    var variables := FindMappingValue(graph, environment.value, "variables");
    if variables.Duplicate? { return Malformed; }
    if variables.Absent? { return NoVariables; }
    var n := graph[variables.value];
    if n.kind.Scalar? && n.tag == "!!null" { return NoVariables; }
    if !n.kind.Mapping? { return Malformed; }
    return Vars(environment.key, variables.key, variables.value);
  }

  /** mergeRedactedEnvironmentValues: placeholders in the graph are replaced in
      place by the current values of the same names. */
  method Merge(graph: array<Node>, root: Option<nat>, current: Option<array<Node>>, currentRoot: Option<nat>) returns (ok: bool)
    requires GoodDoc(Doc(graph[..], root))
    requires current.Some? ==> current.value != graph && GoodDoc(Doc(current.value[..], currentRoot))
    modifies graph
    modifies if current.Some? then {current.value} else {}
    ensures current.Some? && ok ==> current.value[..] == old(current.value[..])
    ensures var before := Doc(old(graph[..]), root);
      var against := if current.Some? then Some(Doc(old(current.value[..]), currentRoot)) else None;
      && ok == MergeConfig(before, against).Ok?
      && (ok ==> MergeConfig(before, against) == Ok(Doc(graph[..], root)))
  {
    var variables := FindVariables(graph, root);
    if variables.Malformed? { return false; }
    if variables.NoVariables? { return true; }
    var scan := new Editor(graph);
    ok := scan.WalkNode(Scan, variables.node);
    if !ok || !scan.needsMerge { return; }
    if current.None? { return false; }
    var existing := CollectExisting(current.value, currentRoot);
    if existing.None? { return false; }
    var editor := new Editor(graph);
    editor.literal := scan.literal;
    ok := editor.WalkNode(Restore(existing.value), variables.node);
  }

  /** The current values by name; collecting them changes nothing. */
  method CollectExisting(graph: array<Node>, root: Option<nat>) returns (existing: Option<map<string, Node>>)
    requires GoodDoc(Doc(graph[..], root))
    modifies graph
    ensures existing == ExistingValues(Doc(old(graph[..]), root))
    ensures existing.Some? ==> GoodPass(Restore(existing.value)) && graph[..] == old(graph[..])
  {
    ExistingAreScalars(Doc(graph[..], root));
    var variables := FindVariables(graph, root);
    if variables.Malformed? { return None; }
    if variables.NoVariables? { return Some(map[]); }
    var editor := new Editor(graph);
    CollectLeavesHeap({}, Begin(graph[..]), variables.node);
    var ok := editor.WalkNode(Collect, variables.node);
    if !ok { return None; }
    return Some(editor.found);
  }
}
