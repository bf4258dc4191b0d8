/** Adjacency lists that start from default tokens, over any type of token names. */
module AdjacencyGraph {

  datatype Graph<T(==)> = Graph(adjacent: map<T, seq<T>>, defaultTokens: seq<T>)

  predicate Edge<T(==)>(g: Graph<T>, source: T, target: T) {
    source in g.adjacent && target in g.adjacent[source]
  }

  predicate Distinct<T(==)>(xs: seq<T>) { forall i, j :: 0 <= i < j < |xs| ==> xs[i] != xs[j] }

  ghost predicate AllIn<T>(xs: seq<T>, legal: iset<T>) { forall x <- xs :: x in legal }

  // ----- Building -----

  /** Adds one edge; a new source starts with the default tokens. */
  function WithEdge<T(==)>(g: Graph<T>, source: T, target: T): Graph<T> {
    g.(adjacent := g.adjacent[source := Including(Targets(g, source), target)])
  }

  function Targets<T(==)>(g: Graph<T>, source: T): seq<T> {
    if source in g.adjacent then g.adjacent[source] else g.defaultTokens
  }

  function Including<T(==)>(xs: seq<T>, x: T): seq<T> { if x in xs then xs else xs + [x] }

  function WithBoth<T(==)>(g: Graph<T>, a: T, b: T): Graph<T> { WithEdge(WithEdge(g, a, b), b, a) }

  /** What a chain of calls leaves behind; a call that throws keeps the edges added before. */
  datatype Outcome<T(==)> = Outcome(graph: Graph<T>, ok: bool)

  /** Joins two tokens, unless they are the same. */
  function Join<T(==)>(g: Graph<T>, a: T, b: T): Outcome<T> {
    if a == b then Outcome(g, false) else Outcome(WithBoth(g, a, b), true)
  }

  /** Joins token `i` with the tokens from `j` on. */
  function JoinRow<T(==)>(g: Graph<T>, tokens: seq<T>, i: nat, j: nat): Outcome<T>
    requires i < j
    decreases |tokens| - j
  {
    if j >= |tokens| then Outcome(g, true)
    else
      var next := Join(g, tokens[i], tokens[j]);
      if !next.ok then next else JoinRow(next.graph, tokens, i, j + 1)
  }

  /** Joins each token from `i` on with the tokens after it. */
  function JoinRows<T(==)>(g: Graph<T>, tokens: seq<T>, i: nat): Outcome<T>
    decreases |tokens| - i
  {
    if i >= |tokens| then Outcome(g, true)
    else
      var row := JoinRow(g, tokens, i, i + 1);
      if !row.ok then row else JoinRows(row.graph, tokens, i + 1)
  }

  // ----- What building keeps -----

  /** A list starts with the default tokens, is legal and free of duplicates, and adds no self-edge. */
  ghost predicate GoodList<T>(source: T, targets: seq<T>, defaults: seq<T>, legal: iset<T>) {
    && source in legal && Distinct(targets) && AllIn(targets, legal)
    && defaults <= targets
    && (source in targets ==> source in defaults)
  }

  ghost predicate WellFormed<T>(g: Graph<T>, legal: iset<T>) {
    && Distinct(g.defaultTokens) && AllIn(g.defaultTokens, legal)
    && forall k <- g.adjacent :: GoodList(k, g.adjacent[k], g.defaultTokens, legal)
  }

  /** Every edge to a token that is not a default has its reverse. */
  ghost predicate Bidirectional<T(!new)>(g: Graph<T>) {
    forall k, t :: Edge(g, k, t) && t !in g.defaultTokens ==> Edge(g, t, k)
  }

  lemma TargetsAreGood<T>(g: Graph<T>, legal: iset<T>, source: T)
    requires WellFormed(g, legal) && source in legal
    ensures GoodList(source, Targets(g, source), g.defaultTokens, legal)
  {
  }

  lemma IncludingIsGood<T>(source: T, targets: seq<T>, target: T, defaults: seq<T>, legal: iset<T>)
    requires GoodList(source, targets, defaults, legal) && target in legal && source != target
    ensures GoodList(source, Including(targets, target), defaults, legal)
  {
  }

  lemma WithEdgeIsWellFormed<T>(g: Graph<T>, legal: iset<T>, source: T, target: T)
    requires WellFormed(g, legal) && source in legal && target in legal && source != target
    ensures WellFormed(WithEdge(g, source, target), legal)
    ensures WithEdge(g, source, target).defaultTokens == g.defaultTokens
  {
    var h := WithEdge(g, source, target);
    forall k <- h.adjacent ensures GoodList(k, h.adjacent[k], h.defaultTokens, legal) {
      if k == source {
        TargetsAreGood(g, legal, source);
        IncludingIsGood(source, Targets(g, source), target, g.defaultTokens, legal);
      }
    }
  }

  lemma EdgesOfWithEdge<T>(g: Graph<T>, legal: iset<T>, source: T, target: T, k: T, t: T)
    requires WellFormed(g, legal)
    ensures Edge(WithEdge(g, source, target), k, t)
       <==> Edge(g, k, t) || (k == source && (t == target || t in g.defaultTokens))
  {
    if source in g.adjacent && t in g.defaultTokens {
      assert GoodList(source, g.adjacent[source], g.defaultTokens, legal);
      PrefixMember(g.defaultTokens, g.adjacent[source], t);
    }
  }

  lemma PrefixMember<T>(xs: seq<T>, ys: seq<T>, x: T)
    requires xs <= ys && x in xs
    ensures x in ys
  {
    var i :| 0 <= i < |xs| && xs[i] == x;
    assert ys[i] == x;
  }

  /** The edges `WithBoth` adds. */
  predicate Joins<T(==)>(a: T, b: T, defaultTokens: seq<T>, k: T, t: T) {
    (k == a && (t == b || t in defaultTokens)) || (k == b && (t == a || t in defaultTokens))
  }

  lemma WithBothIsWellFormed<T>(g: Graph<T>, legal: iset<T>, a: T, b: T)
    requires WellFormed(g, legal) && a in legal && b in legal && a != b
    ensures WellFormed(WithBoth(g, a, b), legal) && WithBoth(g, a, b).defaultTokens == g.defaultTokens
  {
    WithEdgeIsWellFormed(g, legal, a, b);
    WithEdgeIsWellFormed(WithEdge(g, a, b), legal, b, a);
  }

  lemma EdgesOfWithBoth<T>(g: Graph<T>, legal: iset<T>, a: T, b: T, k: T, t: T)
    requires WellFormed(g, legal) && a in legal && b in legal && a != b
    ensures Edge(WithBoth(g, a, b), k, t) <==> Edge(g, k, t) || Joins(a, b, g.defaultTokens, k, t)
  {
    WithEdgeIsWellFormed(g, legal, a, b);
    EdgesOfWithEdge(g, legal, a, b, k, t);
    EdgesOfWithEdge(WithEdge(g, a, b), legal, b, a, k, t);
  }

  /** What a call that adds edges both ways keeps. */
  ghost predicate Keeps<T(!new)>(g: Graph<T>, h: Graph<T>, legal: iset<T>) {
    WellFormed(h, legal) && h.defaultTokens == g.defaultTokens && (Bidirectional(g) ==> Bidirectional(h))
  }

  lemma JoinKeeps<T(!new)>(g: Graph<T>, legal: iset<T>, a: T, b: T)
    requires WellFormed(g, legal) && a in legal && b in legal
    ensures Keeps(g, Join(g, a, b).graph, legal)
  {
    if a != b {
      var h := WithBoth(g, a, b);
      WithBothIsWellFormed(g, legal, a, b);
      if Bidirectional(g) {
        forall k, t | Edge(h, k, t) && t !in h.defaultTokens ensures Edge(h, t, k) {
          EdgesOfWithBoth(g, legal, a, b, k, t);
          EdgesOfWithBoth(g, legal, a, b, t, k);
        }
      }
    }
  }

  lemma KeepsTransitive<T(!new)>(g: Graph<T>, h: Graph<T>, l: Graph<T>, legal: iset<T>)
    requires Keeps(g, h, legal) && Keeps(h, l, legal)
    ensures Keeps(g, l, legal)
  {
  }

  lemma {:induction false} RowKeeps<T(!new)>(g: Graph<T>, legal: iset<T>, tokens: seq<T>, i: nat, j: nat)
    requires WellFormed(g, legal) && AllIn(tokens, legal) && i < j
    ensures Keeps(g, JoinRow(g, tokens, i, j).graph, legal)
    decreases |tokens| - j
  {
    hide WellFormed, WithEdge, Bidirectional;
    if j < |tokens| {
      var next := Join(g, tokens[i], tokens[j]);
      JoinKeeps(g, legal, tokens[i], tokens[j]);
      if next.ok {
        RowKeeps(next.graph, legal, tokens, i, j + 1);
        KeepsTransitive(g, next.graph, JoinRow(next.graph, tokens, i, j + 1).graph, legal);
      }
    }
  }

  lemma {:induction false} RowsKeep<T(!new)>(g: Graph<T>, legal: iset<T>, tokens: seq<T>, i: nat)
    requires WellFormed(g, legal) && AllIn(tokens, legal)
    ensures Keeps(g, JoinRows(g, tokens, i).graph, legal)
    decreases |tokens| - i
  {
    if i < |tokens| {
      var row := JoinRow(g, tokens, i, i + 1);
      RowKeeps(g, legal, tokens, i, i + 1);
      if row.ok {
        RowsKeep(row.graph, legal, tokens, i + 1);
        KeepsTransitive(g, row.graph, JoinRows(row.graph, tokens, i + 1).graph, legal);
      }
    }
  }

  // ----- A complete subgraph is complete -----

  /** An edge that pairing token `i` with the tokens from `j` on will add. */
  predicate RowPending<T(==)>(tokens: seq<T>, defaults: seq<T>, i: nat, j: nat, k: T, t: T)
    requires i < |tokens|
  {
    exists b :: j <= b < |tokens| && Joins(tokens[i], tokens[b], defaults, k, t)
  }

  predicate WholeRowPending<T(==)>(tokens: seq<T>, defaults: seq<T>, i: nat, k: T, t: T)
    requires i < |tokens|
  {
    RowPending(tokens, defaults, i, i + 1, k, t)
  }

  predicate RowsPending<T(==)>(tokens: seq<T>, defaults: seq<T>, i: nat, k: T, t: T) {
    exists a :: i <= a < |tokens| && WholeRowPending(tokens, defaults, a, k, t)
  }

  lemma RowPendingStep<T>(tokens: seq<T>, defaults: seq<T>, i: nat, j: nat, k: T, t: T)
    requires i < j < |tokens|
    ensures RowPending(tokens, defaults, i, j, k, t)
       <==> RowPending(tokens, defaults, i, j + 1, k, t) || Joins(tokens[i], tokens[j], defaults, k, t)
  {
  }

  lemma RowsPendingStep<T>(tokens: seq<T>, defaults: seq<T>, i: nat, k: T, t: T)
    requires i < |tokens|
    ensures RowsPending(tokens, defaults, i, k, t)
       <==> RowsPending(tokens, defaults, i + 1, k, t) || WholeRowPending(tokens, defaults, i, k, t)
  {
  }

  lemma {:induction false} RowSucceeds<T>(g: Graph<T>, legal: iset<T>, tokens: seq<T>, i: nat, j: nat)
    requires WellFormed(g, legal) && AllIn(tokens, legal) && Distinct(tokens) && i < j && i < |tokens|
    ensures var row := JoinRow(g, tokens, i, j);
            row.ok && WellFormed(row.graph, legal) && row.graph.defaultTokens == g.defaultTokens
    decreases |tokens| - j
  {
    hide WellFormed, WithEdge;
    if j < |tokens| {
      WithBothIsWellFormed(g, legal, tokens[i], tokens[j]);
      RowSucceeds(WithBoth(g, tokens[i], tokens[j]), legal, tokens, i, j + 1);
    }
  }

  lemma {:induction false} RowAddsExactly<T>(g: Graph<T>, legal: iset<T>, tokens: seq<T>, i: nat, j: nat, k: T, t: T)
    requires WellFormed(g, legal) && AllIn(tokens, legal) && Distinct(tokens) && i < j && i < |tokens|
    ensures Edge(JoinRow(g, tokens, i, j).graph, k, t)
       <==> Edge(g, k, t) || RowPending(tokens, g.defaultTokens, i, j, k, t)
    decreases |tokens| - j
  {
    hide WellFormed, WithEdge;
    if j < |tokens| {
      var a, b := tokens[i], tokens[j];
      WithBothIsWellFormed(g, legal, a, b);
      EdgesOfWithBoth(g, legal, a, b, k, t);
      RowAddsExactly(WithBoth(g, a, b), legal, tokens, i, j + 1, k, t);
      RowPendingStep(tokens, g.defaultTokens, i, j, k, t);
    }
  }

  lemma {:induction false} RowsSucceed<T>(g: Graph<T>, legal: iset<T>, tokens: seq<T>, i: nat)
    requires WellFormed(g, legal) && AllIn(tokens, legal) && Distinct(tokens)
    ensures JoinRows(g, tokens, i).ok
    decreases |tokens| - i
  {
    if i < |tokens| {
      RowSucceeds(g, legal, tokens, i, i + 1);
      RowsSucceed(JoinRow(g, tokens, i, i + 1).graph, legal, tokens, i + 1);
    }
  }

  lemma {:induction false} RowsAddExactly<T>(g: Graph<T>, legal: iset<T>, tokens: seq<T>, i: nat, k: T, t: T)
    requires WellFormed(g, legal) && AllIn(tokens, legal) && Distinct(tokens)
    ensures Edge(JoinRows(g, tokens, i).graph, k, t)
       <==> Edge(g, k, t) || RowsPending(tokens, g.defaultTokens, i, k, t)
    decreases |tokens| - i
  {
    if i < |tokens| {
      RowSucceeds(g, legal, tokens, i, i + 1);
      RowAddsExactly(g, legal, tokens, i, i + 1, k, t);
      RowsAddExactly(JoinRow(g, tokens, i, i + 1).graph, legal, tokens, i + 1, k, t);
      RowsPendingStep(tokens, g.defaultTokens, i, k, t);
    }
  }

  /** With two tokens or more, those pending from the start lead from a listed token to a default or another one. */
  lemma PendingIff<T>(tokens: seq<T>, defaults: seq<T>, k: T, t: T)
    requires |tokens| >= 2 && Distinct(tokens)
    ensures RowsPending(tokens, defaults, 0, k, t) <==> k in tokens && (t in defaults || (t in tokens && t != k))
  {
    if k in tokens && (t in defaults || (t in tokens && t != k)) {
      PendingWitness(tokens, defaults, k, t);
    }
  }

  lemma PendingWitness<T>(tokens: seq<T>, defaults: seq<T>, k: T, t: T)
    requires |tokens| >= 2 && k in tokens && (t in defaults || (t in tokens && t != k))
    ensures RowsPending(tokens, defaults, 0, k, t)
  {
    var x :| 0 <= x < |tokens| && tokens[x] == k;
    var y := if t in tokens && t != k then (var y :| 0 <= y < |tokens| && tokens[y] == t; y)
             else if x == 0 then 1 else 0;
    if x < y {
      assert Joins(tokens[x], tokens[y], defaults, k, t);
      assert WholeRowPending(tokens, defaults, x, k, t);
    } else {
      assert Joins(tokens[y], tokens[x], defaults, k, t);
      assert WholeRowPending(tokens, defaults, y, k, t);
    }
  }

  lemma {:induction false} RowThrows<T>(g: Graph<T>, tokens: seq<T>, i: nat, j: nat, b: nat)
    requires i < j <= b < |tokens| && tokens[i] == tokens[b]
    ensures !JoinRow(g, tokens, i, j).ok
    decreases |tokens| - j
  {
    var next := Join(g, tokens[i], tokens[j]);
    if next.ok { RowThrows(next.graph, tokens, i, j + 1, b); }
  }

  lemma {:induction false} RowsThrow<T>(g: Graph<T>, tokens: seq<T>, i: nat, a: nat, b: nat)
    requires i <= a < b < |tokens| && tokens[a] == tokens[b]
    ensures !JoinRows(g, tokens, i).ok
    decreases |tokens| - i
  {
    var row := JoinRow(g, tokens, i, i + 1);
    if i == a { RowThrows(g, tokens, a, a + 1, b); }
    if row.ok { RowsThrow(row.graph, tokens, i + 1, a, b); }
  }

  // ----- Intermediate tokens -----

  /** `_.union`: the elements of both lists, each once, in order of appearance. */
  function Union<T(!new, ==)>(xs: seq<T>, ys: seq<T>): (zs: seq<T>)
    requires Distinct(xs)
    ensures Distinct(zs) && forall z :: z in zs <==> z in xs || z in ys
  {
    if |ys| == 0 then xs
    else
      var front := Union(xs, ys[..|ys| - 1]);
      if ys[|ys| - 1] in front then front else front + [ys[|ys| - 1]]
  }

  function Without<T(!new, ==)>(xs: seq<T>, a: T, b: T): (zs: seq<T>)
    requires Distinct(xs)
    ensures Distinct(zs) && forall z :: z in zs <==> z in xs && z != a && z != b
  {
    if |xs| == 0 then []
    else
      assert xs[|xs| - 1] !in xs[..|xs| - 1];
      var front := Without(xs[..|xs| - 1], a, b);
      if xs[|xs| - 1] != a && xs[|xs| - 1] != b then front + [xs[|xs| - 1]] else front
  }

  /** The tokens adjacent to either end, in order of appearance, without the ends themselves. */
  function Between<T(!new, ==)>(g: Graph<T>, a: T, b: T): seq<T>
    requires Distinct(Targets(g, a))
  {
    Without(Union(Targets(g, a), Targets(g, b)), a, b)
  }

  lemma BetweenIsSymmetric<T(!new)>(g: Graph<T>, legal: iset<T>, a: T, b: T, t: T)
    requires WellFormed(g, legal) && a in legal && b in legal
    requires Distinct(Targets(g, a)) && Distinct(Targets(g, b))
    ensures t in Between(g, a, b) <==> t in Between(g, b, a)
    ensures t in Between(g, a, b) ==> t in legal && t != a && t != b
  {
    TargetsAreGood(g, legal, a);
    TargetsAreGood(g, legal, b);
  }

  lemma BetweenLinksBack<T(!new)>(g: Graph<T>, a: T, b: T, t: T)
    requires Bidirectional(g) && Distinct(Targets(g, a)) && t !in g.defaultTokens
    requires a !in g.defaultTokens && b !in g.defaultTokens
    ensures t in Between(g, a, b) <==> t != a && t != b && (Edge(g, t, a) || Edge(g, t, b))
  {
    assert Edge(g, a, t) <==> Edge(g, t, a);
    assert Edge(g, b, t) <==> Edge(g, t, b);
  }
}
