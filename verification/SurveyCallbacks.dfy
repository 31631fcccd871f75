/**
 scripts/verify/kernel_isolation_survey.py: whether a definition carries a
 callback, by a walk over annotations that forbids a name to repeat on its way.
 */
module SurveyCallbacks {

  type Name = string

  // File and name of a referenced definition.
  type Key = (Name, Name)

  type NodeId = nat

  // direct: a Protocol with a call-shaped interface, or an annotation that names
  // Callable.  refs: the names its annotations mention, in order.
  datatype Node = Node(direct: bool, refs: seq<Key>)

  // resolves: the definition each name leads to, for those that lead to one.
  datatype Graph = Graph(nodes: seq<Node>, resolves: map<Key, NodeId>)

  predicate Valid(g: Graph) {
    forall k :: k in g.resolves ==> g.resolves[k] < |g.nodes|
  }

  /** _callback_bearing, with the annotations of the node inlined. */
  predicate Bearing(g: Graph, n: NodeId, seen: set<Key>)
    requires Valid(g) && n < |g.nodes|
    decreases |g.resolves.Keys - seen|
  {
    || g.nodes[n].direct
    || exists k :: k in g.nodes[n].refs && k in g.resolves && k !in seen && BearingThrough(g, k, seen)
  }

  predicate BearingThrough(g: Graph, k: Key, seen: set<Key>)
    requires Valid(g) && k in g.resolves && k !in seen
    decreases |g.resolves.Keys - seen|, 0
  {
    Shrinks(g.resolves.Keys, seen, k);
    Bearing(g, g.resolves[k], seen + {k})
  }

  lemma {:induction false} Shrinks(all: set<Key>, seen: set<Key>, k: Key)
    requires k in all && k !in seen
    ensures |all - (seen + {k})| < |all - seen|
  {
    assert all - seen == (all - (seen + {k})) + {k};
  }

  // The node a walk along references from n ends at.
  ghost function End(g: Graph, n: NodeId, walk: seq<Key>): NodeId
    requires forall k :: k in walk ==> k in g.resolves
  {
    if walk == [] then n else g.resolves[walk[|walk| - 1]]
  }

  // Each name of the walk is referenced by the node before it.
  ghost predicate Walk(g: Graph, n: NodeId, walk: seq<Key>) {
    && Valid(g) && n < |g.nodes| && (forall k :: k in walk ==> k in g.resolves)
    && forall i :: 0 <= i < |walk| ==> StepAt(g, n, walk, i)
  }

  ghost predicate StepAt(g: Graph, n: NodeId, walk: seq<Key>, i: nat)
    requires Valid(g) && n < |g.nodes| && i < |walk| && forall k :: k in walk ==> k in g.resolves
  {
    walk[i] in g.nodes[End(g, n, walk[..i])].refs
  }

  /** Some definition reachable by references carries a callback directly. */
  ghost predicate Reaches(g: Graph, n: NodeId) {
    exists walk :: Walk(g, n, walk) && g.nodes[End(g, n, walk)].direct
  }

  ghost predicate NoRepeats(walk: seq<Key>) {
    forall i, j :: 0 <= i < j < |walk| ==> walk[i] != walk[j]
  }

  lemma {:induction false} WalkFirst(g: Graph, n: NodeId, k: Key, rest: seq<Key>)
    requires Valid(g) && n < |g.nodes| && k in g.resolves && k in g.nodes[n].refs && Walk(g, g.resolves[k], rest)
    ensures Walk(g, n, [k] + rest) && End(g, n, [k] + rest) == End(g, g.resolves[k], rest)
  {
    var walk := [k] + rest;
    forall i | 0 <= i < |walk|
      ensures StepAt(g, n, walk, i)
    {
      if i > 0 {
        assert walk[..i] == [k] + rest[..i - 1];
        assert StepAt(g, g.resolves[k], rest, i - 1);
      }
    }
  }

  lemma {:induction false} WalkRest(g: Graph, n: NodeId, walk: seq<Key>)
    requires Walk(g, n, walk) && walk != []
    ensures walk[0] in g.resolves && walk[0] in g.nodes[n].refs
    ensures Walk(g, g.resolves[walk[0]], walk[1..]) && End(g, g.resolves[walk[0]], walk[1..]) == End(g, n, walk)
  {
    var k, rest := walk[0], walk[1..];
    assert walk[..0] == [] && StepAt(g, n, walk, 0);
    forall i | 0 <= i < |rest|
      ensures StepAt(g, g.resolves[k], rest, i)
    {
      assert StepAt(g, n, walk, i + 1);
      if i > 0 { assert walk[..i + 1][i] == rest[..i][i - 1]; }
    }
  }

  lemma {:induction false} BearingReaches(g: Graph, n: NodeId, seen: set<Key>)
    requires Valid(g) && n < |g.nodes| && Bearing(g, n, seen)
    ensures Reaches(g, n)
    decreases |g.resolves.Keys - seen|
  {
    if g.nodes[n].direct {
      assert Walk(g, n, []);
    } else {
      var k :| k in g.nodes[n].refs && k in g.resolves && k !in seen && BearingThrough(g, k, seen);
      Shrinks(g.resolves.Keys, seen, k);
      BearingReaches(g, g.resolves[k], seen + {k});
      var rest :| Walk(g, g.resolves[k], rest) && g.nodes[End(g, g.resolves[k], rest)].direct;
      WalkFirst(g, n, k, rest);
    }
  }

  lemma {:induction false} TailAvoids(walk: seq<Key>, seen: set<Key>)
    requires walk != [] && NoRepeats(walk) && forall k :: k in walk ==> k !in seen
    ensures NoRepeats(walk[1..]) && forall k :: k in walk[1..] ==> k !in seen + {walk[0]}
  {
    forall k | k in walk[1..]
      ensures k !in seen + {walk[0]}
    {
      var i :| 0 <= i < |walk[1..]| && walk[1..][i] == k;
      assert walk[i + 1] == k;
    }
  }

  // A walk without repeats that avoids the names seen is one the search takes.
  lemma {:induction false} WalkIsFound(g: Graph, n: NodeId, seen: set<Key>, walk: seq<Key>)
    requires Walk(g, n, walk) && g.nodes[End(g, n, walk)].direct && NoRepeats(walk)
    requires forall k :: k in walk ==> k !in seen
    ensures Bearing(g, n, seen)
    decreases |walk|
  {
    if walk != [] {
      var k := walk[0];
      WalkRest(g, n, walk);
      TailAvoids(walk, seen);
      WalkIsFound(g, g.resolves[k], seen + {k}, walk[1..]);
      FoundThrough(g, n, k, seen);
    }
  }

  lemma {:induction false} FoundThrough(g: Graph, n: NodeId, k: Key, seen: set<Key>)
    requires Valid(g) && n < |g.nodes| && k in g.nodes[n].refs && k in g.resolves && k !in seen
    requires Bearing(g, g.resolves[k], seen + {k})
    ensures Bearing(g, n, seen)
  {
    Shrinks(g.resolves.Keys, seen, k);
    assert BearingThrough(g, k, seen);
  }

  // Cutting the loop between two visits of a name.
  lemma {:induction false} WalkCut(g: Graph, n: NodeId, walk: seq<Key>, i: nat, j: nat)
    requires Walk(g, n, walk) && i < j < |walk| && walk[i] == walk[j]
    ensures Walk(g, n, walk[..i] + walk[j..]) && End(g, n, walk[..i] + walk[j..]) == End(g, n, walk)
  {
    var short := walk[..i] + walk[j..];
    forall k | 0 <= k < |short|
      ensures StepAt(g, n, short, k)
    {
      if k <= i {
        assert short[..k] == walk[..k];
        assert StepAt(g, n, walk, k);
      } else {
        assert short[k] == walk[k - i + j] && short[..k][k - 1] == walk[..k - i + j][k - i + j - 1];
        assert StepAt(g, n, walk, k - i + j);
      }
    }
  }

  lemma {:induction false} WithoutRepeats(g: Graph, n: NodeId, walk: seq<Key>) returns (short: seq<Key>)
    requires Walk(g, n, walk)
    ensures Walk(g, n, short) && End(g, n, short) == End(g, n, walk) && NoRepeats(short)
    decreases |walk|
  {
    if i: nat, j: nat :| i < j < |walk| && walk[i] == walk[j] {
      WalkCut(g, n, walk, i, j);
      short := WithoutRepeats(g, n, walk[..i] + walk[j..]);
    } else {
      short := walk;
    }
  }

  /** The walk that never repeats a name on its way answers yes exactly when a
      definition that carries a callback can be reached at all. */
  lemma {:induction false} BearingIsReachability(g: Graph, n: NodeId)
    requires Valid(g) && n < |g.nodes|
    ensures Bearing(g, n, {}) <==> Reaches(g, n)
  {
    if Bearing(g, n, {}) { BearingReaches(g, n, {}); }
    if Reaches(g, n) {
      var walk :| Walk(g, n, walk) && g.nodes[End(g, n, walk)].direct;
      var short := WithoutRepeats(g, n, walk);
      WalkIsFound(g, n, {}, short);
    }
  }
}
