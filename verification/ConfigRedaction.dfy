/** Redacting an agent's configuration before it leaves Fleet, and merging an
    edited configuration with the values that were redacted. */
module ConfigRedaction {
  import opened Transcript
  import opened YamlWalk

  /** A parsed document: its node graph, and its root if it has one. */
  datatype Doc = Doc(h: Heap, root: Option<nat>)

  datatype Outcome = Ok(doc: Doc) | Err

  datatype Lookup = Absent | Unique(key: nat, value: nat) | Duplicate

  predicate GoodDoc(d: Doc) {
    Parsed(d.h) && (d.root.Some? ==> d.root.value < |d.h|)
  }

  /** The one pair of a mapping with this key text, from pair i on, given what
      was found before. */
  function LookupFrom(h: Heap, content: seq<nat>, key: string, i: nat, found: Lookup): (r: Lookup)
    requires forall k | 0 <= k < |content| :: content[k] < |h|
    requires found.Unique? ==> found.key < |h| && found.value < |h|
    ensures r.Unique? ==> r.key < |h| && r.value < |h|
    decreases |content| - i
  {
    if i + 1 >= |content| then found
    else if h[content[i]].value == key then
      if found.Unique? then Duplicate else LookupFrom(h, content, key, i + 2, Unique(content[i], content[i + 1]))
    else LookupFrom(h, content, key, i + 2, found)
  }

  function UniqueMappingValue(h: Heap, node: nat, key: string): (r: Lookup)
    requires node < |h| && Parsed(h)
    ensures r.Unique? ==> r.key < |h| && r.value < |h|
  {
    if h[node].kind.Mapping? then LookupFrom(h, h[node].content, key, 0, Absent) else Absent
  }

  method FindMappingValue(h: array<Node>, node: nat, key: string) returns (r: Lookup)
    requires node < h.Length && Parsed(h[..])
    ensures r == UniqueMappingValue(h[..], node, key)
  {
    if !h[node].kind.Mapping? { return Absent; }
    var content := h[node].content;
    r := Absent;
    var i := 0;
    while i + 1 < |content|
      invariant 0 <= i
      invariant r.Unique? ==> r.key < h.Length && r.value < h.Length
      invariant LookupFrom(h[..], content, key, i, r) == UniqueMappingValue(h[..], node, key)
      invariant !r.Duplicate?
    {
      if h[content[i]].value == key {
        if r.Unique? { return Duplicate; }
        r := Unique(content[i], content[i + 1]);
      }
      i := i + 2;
    }
  }

  /** environment.variables: its node and the key nodes on the way to it. */
  datatype Variables = NoVariables | Vars(environmentKey: nat, variablesKey: nat, node: nat) | Malformed

  function EnvironmentVariables(d: Doc): (r: Variables)
    requires GoodDoc(d)
    ensures r.Vars? ==> r.environmentKey < |d.h| && r.variablesKey < |d.h| && r.node < |d.h|
  {
    if d.root.None? then NoVariables
    else
      var environment := UniqueMappingValue(d.h, d.root.value, "environment");
      if environment.Duplicate? then Malformed
      else if environment.Absent? then NoVariables
      else
        var variables := UniqueMappingValue(d.h, environment.value, "variables");
        if variables.Duplicate? then Malformed
        else if variables.Absent? then NoVariables
        else
          var n := d.h[variables.value];
          if n.kind.Scalar? && n.tag == "!!null" then NoVariables
          else if !n.kind.Mapping? then Malformed
          else Vars(environment.key, variables.key, variables.value)
  }

  function Begin(h: Heap): Ctx {
    Ctx(h, {}, {}, false, false, map[])
  }

  /** RedactAgentConfig */
  function RedactConfig(d: Doc): (r: Outcome)
    requires GoodDoc(d)
    ensures r.Ok? ==> GoodDoc(r.doc) && r.doc.root == d.root && SameShape(d.h, r.doc.h)
  {
    match EnvironmentVariables(d)
    case Malformed => Err
    case NoVariables => Ok(d)
    case Vars(_, _, node) =>
      var w := Walk(Redact, {}, Begin(d.h), node);
      if w.Failed? then Err else Ok(d.(h := w.c.h))
  }

  /** The values of the current configuration, by key. */
  function ExistingValues(current: Doc): (r: Option<map<string, Node>>)
    requires GoodDoc(current)
  {
    match EnvironmentVariables(current)
    case Malformed => None
    case NoVariables => Some(map[])
    case Vars(_, _, node) =>
      var w := Walk(Collect, {}, Begin(current.h), node);
      if w.Failed? then None else Some(w.c.found)
  }

  predicate ScalarsOnly(found: map<string, Node>) {
    forall k | k in found :: ScalarShape(found[k])
  }

  /** Walking only collects scalars. */
  lemma {:induction false} WalkFindsScalars(pass: Pass, visited: set<nat>, c: Ctx, node: nat)
    requires node < |c.h| && Parsed(c.h) && GoodPass(pass) && ScalarsOnly(c.found)
    ensures var r := Walk(pass, visited, c, node); r.Good? ==> ScalarsOnly(r.c.found)
    decreases Unvisited(visited, c.h), if c.h[node].kind.Alias? then 1 else 0
  {
    var n := c.h[node];
    if n.kind.Alias? {
      if n.alias.Some? { WalkFindsScalars(pass, visited, c, n.alias.value); }
    } else if node !in visited {
      assert node in Unvisited(visited, c.h);
      if n.kind.Mapping? { PairsFindScalars(pass, visited + {node}, c, n.content, 0); }
      if n.kind.Sequence? { ItemsFindScalars(pass, visited + {node}, c, n.content, 0); }
    }
  }

  lemma {:induction false} PairsFindScalars(pass: Pass, visited: set<nat>, c: Ctx, content: seq<nat>, i: nat)
    requires Parsed(c.h) && GoodPass(pass) && ScalarsOnly(c.found)
    requires i <= |content| && forall k | 0 <= k < |content| :: content[k] < |c.h|
    ensures var r := WalkPairs(pass, visited, c, content, i); r.Good? ==> ScalarsOnly(r.c.found)
    decreases Unvisited(visited, c.h), 2 + |content| - i
  {
    if i + 1 < |content| {
      var key := c.h[content[i]];
      if IsMergeKey(key) { WalkFindsScalars(pass, visited, c, content[i + 1]); }
      var r := WalkEntry(pass, visited, c, key, content[i + 1], |content| - i);
      if r.Good? {
        assert Unvisited(r.visited, r.c.h) <= Unvisited(visited, c.h);
        PairsFindScalars(pass, r.visited, r.c, content, i + 2);
      }
    }
  }

  lemma {:induction false} ItemsFindScalars(pass: Pass, visited: set<nat>, c: Ctx, content: seq<nat>, i: nat)
    requires Parsed(c.h) && GoodPass(pass) && ScalarsOnly(c.found)
    requires i <= |content| && forall k | 0 <= k < |content| :: content[k] < |c.h|
    ensures var r := WalkItems(pass, visited, c, content, i); r.Good? ==> ScalarsOnly(r.c.found)
    decreases Unvisited(visited, c.h), 2 + |content| - i
  {
    if i < |content| {
      WalkFindsScalars(pass, visited, c, content[i]);
      var r := Walk(pass, visited, c, content[i]);
      if r.Good? {
        assert Unvisited(r.visited, r.c.h) <= Unvisited(visited, c.h);
        ItemsFindScalars(pass, r.visited, r.c, content, i + 1);
      }
    }
  }

  lemma ExistingAreScalars(current: Doc)
    requires GoodDoc(current)
    ensures var e := ExistingValues(current); e.Some? ==> GoodPass(Restore(e.value))
  {
    var vars := EnvironmentVariables(current);
    if vars.Vars? { WalkFindsScalars(Collect, {}, Begin(current.h), vars.node); }
  }

  /** mergeRedactedEnvironmentValues */
  function MergeConfig(d: Doc, current: Option<Doc>): (r: Outcome)
    requires GoodDoc(d) && (current.Some? ==> GoodDoc(current.value))
  {
    match EnvironmentVariables(d)
    case Malformed => Err
    case NoVariables => Ok(d)
    case Vars(_, _, node) =>
      var scan := Walk(Scan, {}, Begin(d.h), node);
      if scan.Failed? then Err
      else if !scan.c.needsMerge then Ok(d.(h := scan.c.h))
      else if current.None? then Err
      else
        var existing := ExistingValues(current.value);
        if existing.None? then Err
        else
          ExistingAreScalars(current.value);
          var merged := Walk(Restore(existing.value), {}, Begin(scan.c.h).(literal := scan.c.literal), node);
          if merged.Failed? then Err else Ok(d.(h := merged.c.h))
  }
}
