/** YAML node graphs as Fleet edits them: nodes in one heap, shared through
    aliases, and the walk over environment.variables that visits every entry
    once, through merge keys, sequences and aliases, changing scalars on the way. */
module YamlWalk {
  import opened Transcript

  datatype Kind = Scalar | Mapping | Sequence | Alias | OtherKind

  datatype Style = DoubleQuoted | OtherStyle(style: int)

  /** A node; content and alias are positions in the heap. `rest` stands for the
      anchor, the comments and the source position. */
  datatype Node = Node(kind: Kind, tag: string, value: string, style: Style,
                       alias: Option<nat>, content: seq<nat>, rest: string)

  type Heap = seq<Node>

  const REDACTED := "[REDACTED_ENV]"
  const LITERAL_TAG := "!juex/literal"
  const STRING_TAG := "!!str"

  predicate ScalarShape(n: Node) {
    n.kind.Scalar? && n.alias.None? && n.content == []
  }

  /** What the parser guarantees: links stay inside the graph, an alias names a
      real node, and scalars have no children. */
  predicate Parsed(h: Heap) {
    && (forall i, k | 0 <= i < |h| && 0 <= k < |h[i].content| :: h[i].content[k] < |h|)
    && (forall i {:trigger h[i].alias} | 0 <= i < |h| && h[i].alias.Some? :: Anchored(h, h[i].alias.value))
    && (forall i {:trigger ScalarShape(h[i])} | 0 <= i < |h| && h[i].kind.Scalar? :: ScalarShape(h[i]))
  }

  predicate Anchored(h: Heap, target: nat) {
    target < |h| && !h[target].kind.Alias?
  }

  predicate IsMergeKey(key: Node) {
    key.tag == "!!merge" || key.value == "<<"
  }

  /** The scalar an environment value stands for, through an alias. */
  function ScalarOf(h: Heap, v: nat): (s: Option<nat>)
    requires v < |h| && Parsed(h)
    ensures s.Some? ==> s.value < |h| && ScalarShape(h[s.value])
  {
    var t := if h[v].kind.Alias? then h[v].alias else Some(v);
    if t.Some? && h[t.value].kind.Scalar? then
      assert ScalarShape(h[t.value]);
      t
    else None
  }

  // ----- one visit -----

  /** What a walk does at each entry. */
  datatype Pass = Redact | Scan | Collect | Restore(existing: map<string, Node>)

  /** What a walk carries along: the heap, the keys seen, and the findings of
      its pass. */
  datatype Ctx = Ctx(h: Heap, seen: set<string>, literal: set<nat>, escaped: bool, needsMerge: bool, found: map<string, Node>)

  datatype Visited = Fine(c: Ctx) | Bad

  function RedactedNode(n: Node): Node {
    n.(kind := Scalar, tag := STRING_TAG, value := REDACTED, style := DoubleQuoted)
  }

  function VisitScalar(pass: Pass, c: Ctx, key: string, s: nat): Visited
    requires s < |c.h|
  {
    var n := c.h[s];
    match pass
    case Redact => Fine(c.(h := c.h[s := RedactedNode(n)]))
    case Scan =>
      if s in c.literal then Fine(c)
      else if n.tag == LITERAL_TAG then
        if n.value != REDACTED then Bad
        else Fine(c.(h := c.h[s := n.(tag := STRING_TAG, style := DoubleQuoted)],
                     literal := c.literal + {s}, escaped := true))
      else Fine(if n.value == REDACTED then c.(needsMerge := true) else c)
    case Collect => Fine(c.(found := c.found[key := n]))
    case Restore(existing) =>
      if s in c.literal || n.value != REDACTED then Fine(c)
      else if key !in existing then Bad
      else Fine(c.(h := c.h[s := existing[key]]))
  }

  function Visit(pass: Pass, c: Ctx, key: string, v: nat): Visited
    requires v < |c.h| && Parsed(c.h)
  {
    if key in c.seen then Bad
    else
      var s := ScalarOf(c.h, v);
      if s.None? then Bad else VisitScalar(pass, c.(seen := c.seen + {key}), key, s.value)
  }

  /** Only scalars change, and into scalars. */
  predicate SameShape(h: Heap, h': Heap) {
    && |h| == |h'|
    && forall i | 0 <= i < |h| ::
      h[i].kind == h'[i].kind && h[i].alias == h'[i].alias && h[i].content == h'[i].content
  }

  predicate GoodPass(pass: Pass) {
    pass.Restore? ==> forall k | k in pass.existing :: ScalarShape(pass.existing[k])
  }

  lemma VisitShape(pass: Pass, c: Ctx, key: string, v: nat)
    requires v < |c.h| && Parsed(c.h) && GoodPass(pass)
    ensures Visit(pass, c, key, v).Fine? ==> SameShape(c.h, Visit(pass, c, key, v).c.h) && Parsed(Visit(pass, c, key, v).c.h)
  {
    var r := Visit(pass, c, key, v);
    if r.Fine? {
      var s := ScalarOf(c.h, v).value;
      assert ScalarShape(c.h[s]);
      assert ScalarShape(r.c.h[s]);
      assert forall i | 0 <= i < |c.h| && i != s :: r.c.h[i] == c.h[i];
      ShapeParsed(c.h, r.c.h);
    }
  }

  lemma ShapeParsed(h: Heap, h': Heap)
    requires Parsed(h) && SameShape(h, h')
    ensures Parsed(h')
  {
    forall i | 0 <= i < |h'| && h'[i].kind.Scalar? ensures ScalarShape(h'[i]) {
      assert ScalarShape(h[i]);
    }
  }

  // ----- the walk -----

  datatype Walked = Good(visited: set<nat>, c: Ctx) | Failed

  predicate Within(visited: set<nat>, h: Heap) {
    forall n | n in visited :: n < |h|
  }

  function Indices(n: nat): (r: set<nat>)
    ensures forall i: nat :: i in r <==> i < n
  {
    if n == 0 then {} else Indices(n - 1) + {n - 1}
  }

  function Unvisited(visited: set<nat>, h: Heap): set<nat> {
    Indices(|h|) - visited
  }

  function Walk(pass: Pass, visited: set<nat>, c: Ctx, node: nat): (r: Walked)
    requires node < |c.h| && Parsed(c.h) && GoodPass(pass)
    ensures r.Good? ==> visited <= r.visited && SameShape(c.h, r.c.h) && Parsed(r.c.h)
    decreases Unvisited(visited, c.h), if c.h[node].kind.Alias? then 1 else 0
  {
    var n := c.h[node];
    if n.kind.Alias? then
      if n.alias.None? then Failed else Walk(pass, visited, c, n.alias.value)
    else if node in visited then Good(visited, c)
    else
      assert node in Unvisited(visited, c.h);
      match n.kind
      case Mapping => WalkPairs(pass, visited + {node}, c, n.content, 0)
      case Sequence => WalkItems(pass, visited + {node}, c, n.content, 0)
      case _ => Failed
  }

  function WalkPairs(pass: Pass, visited: set<nat>, c: Ctx, content: seq<nat>, i: nat): (r: Walked)
    requires Parsed(c.h) && GoodPass(pass) && forall k | 0 <= k < |content| :: content[k] < |c.h|
    requires i <= |content|
    ensures r.Good? ==> visited <= r.visited && SameShape(c.h, r.c.h) && Parsed(r.c.h)
    decreases Unvisited(visited, c.h), 2 + |content| - i
  {
    if i + 1 >= |content| then Good(visited, c)
    else
      var key, value := c.h[content[i]], content[i + 1];
      var r := WalkEntry(pass, visited, c, key, value, |content| - i);
      if r.Failed? then Failed
      else
        assert Unvisited(r.visited, r.c.h) <= Unvisited(visited, c.h);
        WalkPairs(pass, r.visited, r.c, content, i + 2)
  }

  function WalkEntry(pass: Pass, visited: set<nat>, c: Ctx, key: Node, value: nat, ghost rank: nat): (r: Walked)
    requires Parsed(c.h) && GoodPass(pass) && value < |c.h| && rank > 0
    ensures r.Good? ==> visited <= r.visited && SameShape(c.h, r.c.h) && Parsed(r.c.h)
    decreases Unvisited(visited, c.h), 1 + rank
  {
    if IsMergeKey(key) then Walk(pass, visited, c, value)
    else
      VisitShape(pass, c, key.value, value);
      var v := Visit(pass, c, key.value, value);
      if v.Bad? then Failed else Good(visited, v.c)
  }

  function WalkItems(pass: Pass, visited: set<nat>, c: Ctx, content: seq<nat>, i: nat): (r: Walked)
    requires Parsed(c.h) && GoodPass(pass) && forall k | 0 <= k < |content| :: content[k] < |c.h|
    requires i <= |content|
    ensures r.Good? ==> visited <= r.visited && SameShape(c.h, r.c.h) && Parsed(r.c.h)
    decreases Unvisited(visited, c.h), 2 + |content| - i
  {
    if i == |content| then Good(visited, c)
    else
      var r := Walk(pass, visited, c, content[i]);
      if r.Failed? then Failed
      else
        assert Unvisited(r.visited, r.c.h) <= Unvisited(visited, c.h);
        WalkItems(pass, r.visited, r.c, content, i + 1)
  }
}
