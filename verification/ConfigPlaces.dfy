/** Where a configuration's environment.variables are, and what redacting them
    leaves to be seen. */
module ConfigPlaces {
  import opened Transcript
  import opened YamlWalk
  import opened YamlTrace
  import opened ConfigRedaction
  import opened ConfigRoundTrip

  /** A pair of the mapping has this key text. */
  predicate PairAt(h: Heap, node: nat, key: string, i: nat)
    requires Parsed(h) && node < |h|
  {
    h[node].kind.Mapping? && i % 2 == 0 && i + 1 < |h[node].content| && h[h[node].content[i]].value == key
  }

  /** And no other pair has it. */
  ghost predicate SolePair(h: Heap, node: nat, key: string, i: nat)
    requires Parsed(h) && node < |h|
  {
    PairAt(h, node, key, i) && forall j: nat | PairAt(h, node, key, j) :: j == i
  }

  /** One pair has it, this one. */
  ghost predicate OnlyPair(h: Heap, node: nat, key: string, keyNode: nat, value: nat)
    requires Parsed(h) && node < |h|
  {
    exists i: nat :: SolePair(h, node, key, i) && h[node].content[i] == keyNode && h[node].content[i + 1] == value
  }

  ghost predicate TwoPairs(h: Heap, node: nat, key: string)
    requires Parsed(h) && node < |h|
  {
    exists i: nat, j: nat :: i < j && PairAt(h, node, key, i) && PairAt(h, node, key, j)
  }

  lemma {:induction false} LookupFound(h: Heap, node: nat, key: string, i: nat, found: Lookup)
    requires Parsed(h) && node < |h| && h[node].kind.Mapping? && i % 2 == 0
    requires found.Unique? && found.key < |h| && found.value < |h|
    ensures LookupFrom(h, h[node].content, key, i, found) ==
      if exists j: nat :: i <= j && PairAt(h, node, key, j) then Duplicate else found
    decreases |h[node].content| - i
  {
    if i + 1 < |h[node].content| {
      if h[h[node].content[i]].value == key {
        assert PairAt(h, node, key, i);
      } else {
        LookupFound(h, node, key, i + 2, found);
      }
    }
  }

  /** From position i on, j is the one place of the key. */
  ghost predicate FoundAt(h: Heap, node: nat, key: string, i: nat, j: nat)
    requires Parsed(h) && node < |h|
  {
    i <= j && PairAt(h, node, key, j) && forall l: nat | i <= l && PairAt(h, node, key, l) :: l == j
  }

  lemma {:induction false} LookupAbsent(h: Heap, node: nat, key: string, i: nat)
    requires Parsed(h) && node < |h| && h[node].kind.Mapping? && i % 2 == 0
    ensures var r := LookupFrom(h, h[node].content, key, i, Absent);
      && (r.Absent? <==> forall j: nat | i <= j :: !PairAt(h, node, key, j))
      && (r.Unique? ==> exists j: nat :: FoundAt(h, node, key, i, j) && r.key == h[node].content[j] && r.value == h[node].content[j + 1])
      && (r.Duplicate? ==> exists j: nat, l: nat :: i <= j < l && PairAt(h, node, key, j) && PairAt(h, node, key, l))
    decreases |h[node].content| - i
  {
    var content := h[node].content;
    if i + 1 < |content| {
      if h[content[i]].value == key {
        assert PairAt(h, node, key, i);
        LookupFound(h, node, key, i + 2, Unique(content[i], content[i + 1]));
      } else {
        LookupAbsent(h, node, key, i + 2);
      }
    }
  }

  /** A lookup finds the one pair with its key, and tells none from several. */
  lemma LookupIs(h: Heap, node: nat, key: string)
    requires Parsed(h) && node < |h|
    ensures var r := UniqueMappingValue(h, node, key);
      && (r.Unique? ==> OnlyPair(h, node, key, r.key, r.value))
      && (forall k: nat, v: nat | OnlyPair(h, node, key, k, v) :: r.Unique? && r.key == k && r.value == v)
      && (TwoPairs(h, node, key) <==> r.Duplicate?)
  {
    if h[node].kind.Mapping? {
      LookupAbsent(h, node, key, 0);
      var r := UniqueMappingValue(h, node, key);
      if r.Unique? {
        var j: nat :| FoundAt(h, node, key, 0, j) && r.key == h[node].content[j] && r.value == h[node].content[j + 1];
        assert SolePair(h, node, key, j);
      }
    }
  }

  /** The value under both keys. */
  ghost predicate UnderBoth(d: Doc, environmentKey: nat, variablesKey: nat, value: nat)
    requires GoodDoc(d)
  {
    d.root.Some? && exists environment: nat ::
      && environment < |d.h|
      && OnlyPair(d.h, d.root.value, "environment", environmentKey, environment)
      && OnlyPair(d.h, environment, "variables", variablesKey, value)
  }

  /** One of the two keys stands twice. */
  ghost predicate KeyTwice(d: Doc)
    requires GoodDoc(d)
  {
    d.root.Some? &&
    (|| TwoPairs(d.h, d.root.value, "environment")
     || exists environmentKey: nat, environment: nat ::
          && environment < |d.h| && OnlyPair(d.h, d.root.value, "environment", environmentKey, environment)
          && TwoPairs(d.h, environment, "variables"))
  }

  predicate IsNull(n: Node) {
    n.kind.Scalar? && n.tag == "!!null"
  }

  /** The variables are the mapping under both keys. A document in which one of
      the keys stands twice, or in which something else than a mapping or null is
      there, is malformed; any other has no variables. */
  lemma VariablesAre(d: Doc)
    requires GoodDoc(d)
    ensures var r := EnvironmentVariables(d);
      && (r.Vars? ==> UnderBoth(d, r.environmentKey, r.variablesKey, r.node) && d.h[r.node].kind.Mapping?)
      && (forall e: nat, v: nat, node: nat | UnderBoth(d, e, v, node) && node < |d.h| && d.h[node].kind.Mapping? ::
            r.Vars? && r.environmentKey == e && r.variablesKey == v && r.node == node)
    ensures EnvironmentVariables(d).Malformed? <==>
      || KeyTwice(d)
      || exists e: nat, v: nat, node: nat :: UnderBoth(d, e, v, node) && node < |d.h| && !d.h[node].kind.Mapping? && !IsNull(d.h[node])
  {
    hide OnlyPair, TwoPairs, UniqueMappingValue;
    if d.root.Some? {
      LookupIs(d.h, d.root.value, "environment");
      var environment := UniqueMappingValue(d.h, d.root.value, "environment");
      if environment.Unique? {
        LookupIs(d.h, environment.value, "variables");
        var variables := UniqueMappingValue(d.h, environment.value, "variables");
        if variables.Unique? {
          assert UnderBoth(d, environment.key, variables.key, variables.value);
        }
      }
    }
  }
}
