/** The token adjacency graph that proposes intermediate tokens, and its builder. */
module TokenGraph {
  import opened MarketTypes
  import opened Text
  import opened AdjacencyGraph

  type Tokens = Graph<Address>

  ghost function LowerCase(): iset<Address> { iset s: Address | IsLower(s) }

  function LowerAll(tokens: seq<Address>): (lowered: seq<Address>)
    ensures |lowered| == |tokens| && forall k :: 0 <= k < |tokens| ==> lowered[k] == ToLower(tokens[k])
    ensures AllIn(lowered, LowerCase())
  {
    seq(|tokens|, i requires 0 <= i < |tokens| => ToLower(tokens[i]))
  }

  function EmptyGraph(defaultTokens: seq<Address>): Tokens { Graph(map[], LowerAll(defaultTokens)) }

  function AddOutcome(g: Tokens, source: Address, target: Address): Outcome<Address> {
    if ToLower(source) == ToLower(target) then Outcome(g, false)
    else Outcome(WithEdge(g, ToLower(source), ToLower(target)), true)
  }

  function AddBidirectionalOutcome(g: Tokens, a: Address, b: Address): Outcome<Address> {
    Join(g, ToLower(a), ToLower(b))
  }

  function AddCompleteSubgraphOutcome(g: Tokens, tokens: seq<Address>): Outcome<Address> {
    JoinRows(g, LowerAll(tokens), 0)
  }

  class TokenAdjacencyGraphBuilder {
    var graph: map<Address, seq<Address>>
    var defaultTokens: seq<Address>

    ghost function Value(): Tokens
      reads this
    {
      Graph(graph, defaultTokens)
    }

    constructor (tokens: seq<Address>)
      ensures Value() == EmptyGraph(tokens)
    {
      graph := map[];
      defaultTokens := LowerAll(tokens);
    }

    method Add(source: Address, target: Address) returns (ok: bool)
      modifies this
      ensures Outcome(Value(), ok) == AddOutcome(old(Value()), source, target)
    {
      var sourceLower, targetLower := ToLower(source), ToLower(target);
      if sourceLower == targetLower {
        return false;
      }
      if sourceLower !in graph {
        graph := graph[sourceLower := defaultTokens];
      }
      if targetLower !in graph[sourceLower] {
        graph := graph[sourceLower := graph[sourceLower] + [targetLower]];
      }
      assert graph == WithEdge(old(Value()), sourceLower, targetLower).adjacent;
      return true;
    }

    method AddBidirectional(a: Address, b: Address) returns (ok: bool)
      modifies this
      ensures Outcome(Value(), ok) == AddBidirectionalOutcome(old(Value()), a, b)
    {
      ok := Add(a, b);
      if ok {
        ok := Add(b, a);
      }
    }

    method AddCompleteSubgraph(tokens: seq<Address>) returns (ok: bool)
      modifies this
      ensures Outcome(Value(), ok) == AddCompleteSubgraphOutcome(old(Value()), tokens)
    {
      ghost var lowered := LowerAll(tokens);
      for i := 0 to |tokens|
        invariant JoinRows(Value(), lowered, i) == JoinRows(old(Value()), lowered, 0)
      {
        ghost var row := JoinRow(Value(), lowered, i, i + 1);
        for j := i + 1 to |tokens|
          invariant JoinRow(Value(), lowered, i, j) == row
          invariant JoinRows(old(Value()), lowered, 0) == if row.ok then JoinRows(row.graph, lowered, i + 1) else row
        {
          ok := AddBidirectional(tokens[i], tokens[j]);
          if !ok {
            return;
          }
        }
      }
      ok := true;
    }
  }

  // ----- What every sequence of calls keeps -----

  datatype Call =
    | AddCall(source: Address, target: Address)
    | BothCall(a: Address, b: Address)
    | CompleteCall(tokens: seq<Address>)

  function Apply(g: Tokens, call: Call): Tokens {
    match call
    case AddCall(source, target) => AddOutcome(g, source, target).graph
    case BothCall(a, b) => AddBidirectionalOutcome(g, a, b).graph
    case CompleteCall(tokens) => AddCompleteSubgraphOutcome(g, tokens).graph
  }

  function Run(g: Tokens, calls: seq<Call>): Tokens {
    if |calls| == 0 then g else Apply(Run(g, calls[..|calls| - 1]), calls[|calls| - 1])
  }

  lemma ApplyKeeps(g: Tokens, call: Call)
    requires WellFormed(g, LowerCase())
    ensures WellFormed(Apply(g, call), LowerCase()) && Apply(g, call).defaultTokens == g.defaultTokens
    ensures Bidirectional(g) && !call.AddCall? ==> Bidirectional(Apply(g, call))
  {
    match call
    case AddCall(source, target) =>
      if ToLower(source) != ToLower(target) { WithEdgeIsWellFormed(g, LowerCase(), ToLower(source), ToLower(target)); }
    case BothCall(a, b) =>
      JoinKeeps(g, LowerCase(), ToLower(a), ToLower(b));
    case CompleteCall(tokens) =>
      RowsKeep(g, LowerCase(), LowerAll(tokens), 0);
  }

  /** Over every sequence of calls, those that throw included, and from distinct default tokens. */
  lemma {:induction false} EveryRunIsWellFormed(defaultTokens: seq<Address>, calls: seq<Call>)
    requires Distinct(LowerAll(defaultTokens))
    ensures WellFormed(Run(EmptyGraph(defaultTokens), calls), LowerCase())
    ensures Run(EmptyGraph(defaultTokens), calls).defaultTokens == LowerAll(defaultTokens)
    ensures (forall call <- calls :: !call.AddCall?) ==> Bidirectional(Run(EmptyGraph(defaultTokens), calls))
  {
    if |calls| > 0 {
      var front, last := calls[..|calls| - 1], calls[|calls| - 1];
      EveryRunIsWellFormed(defaultTokens, front);
      ApplyKeeps(Run(EmptyGraph(defaultTokens), front), last);
      assert last in calls && forall call <- front :: call in calls;
    }
  }

  /** The first graph is well formed exactly when the default tokens differ, in whatever case they are spelled. */
  lemma DistinctDefaultsIff(defaultTokens: seq<Address>)
    ensures WellFormed(EmptyGraph(defaultTokens), LowerCase()) <==> Distinct(LowerAll(defaultTokens))
    ensures Distinct(LowerAll(defaultTokens))
       <==> forall i, j :: 0 <= i < j < |defaultTokens| ==> ToLower(defaultTokens[i]) != ToLower(defaultTokens[j])
  {
  }

  /** Adding an edge fails for a token and itself, and otherwise adds the edge, and the defaults to a new list. */
  lemma AddIsExact(g: Tokens, source: Address, target: Address, k: Address, t: Address)
    requires WellFormed(g, LowerCase())
    ensures var added := AddOutcome(g, source, target);
            && (added.ok <==> !SameIgnoringCase(source, target))
            && (Edge(added.graph, k, t)
                <==> || Edge(g, k, t)
                     || (added.ok && k == ToLower(source) && (t == ToLower(target) || t in g.defaultTokens)))
  {
    ToLowerEqualIff(source, target);
    TargetsAreGood(g, LowerCase(), ToLower(source));
  }

  /** Both edges are added, or none. */
  lemma AddBothIsExact(g: Tokens, a: Address, b: Address, k: Address, t: Address)
    requires WellFormed(g, LowerCase())
    ensures var added := AddBidirectionalOutcome(g, a, b);
            && (added.ok <==> !SameIgnoringCase(a, b))
            && (Edge(added.graph, k, t)
                <==> || Edge(g, k, t)
                     || (added.ok && k == ToLower(a) && (t == ToLower(b) || t in g.defaultTokens))
                     || (added.ok && k == ToLower(b) && (t == ToLower(a) || t in g.defaultTokens)))
  {
    AddIsExact(g, a, b, k, t);
    if ToLower(a) != ToLower(b) {
      WithEdgeIsWellFormed(g, LowerCase(), ToLower(a), ToLower(b));
      AddIsExact(AddOutcome(g, a, b).graph, b, a, k, t);
    } else {
      ToLowerEqualIff(a, b);
    }
    ToLowerEqualIff(a, b);
    ToLowerEqualIff(b, a);
  }

  /** Adding distinct tokens as a complete subgraph adds exactly the edges between them, and the defaults. */
  lemma CompleteSubgraphIsComplete(g: Tokens, tokens: seq<Address>, k: Address, t: Address)
    requires WellFormed(g, LowerCase()) && Distinct(LowerAll(tokens)) && |tokens| >= 2
    ensures Edge(AddCompleteSubgraphOutcome(g, tokens).graph, k, t)
       <==> Edge(g, k, t) || (k in LowerAll(tokens) && (t in g.defaultTokens || (t in LowerAll(tokens) && t != k)))
  {
    RowsAddExactly(g, LowerCase(), LowerAll(tokens), 0, k, t);
    PendingIff(LowerAll(tokens), g.defaultTokens, k, t);
  }

  /** The call throws exactly when a token is repeated, in whatever case it is spelled. */
  lemma CompleteSubgraphThrowsIff(g: Tokens, tokens: seq<Address>)
    requires WellFormed(g, LowerCase())
    ensures AddCompleteSubgraphOutcome(g, tokens).ok <==> Distinct(LowerAll(tokens))
  {
    var lowered := LowerAll(tokens);
    if Distinct(lowered) {
      RowsSucceed(g, LowerCase(), lowered, 0);
    } else {
      var a, b :| 0 <= a < b < |lowered| && lowered[a] == lowered[b];
      RowsThrow(g, lowered, 0, a, b);
    }
  }

  // ----- Intermediate tokens -----

  function GetAdjacentTokens(g: Tokens, source: Address): seq<Address> { Targets(g, ToLower(source)) }

  lemma AdjacentTokensAreDistinct(g: Tokens, source: Address)
    requires WellFormed(g, LowerCase())
    ensures Distinct(GetAdjacentTokens(g, source))
  {
    TargetsAreGood(g, LowerCase(), ToLower(source));
  }

  function GetIntermediateTokens(g: Tokens, takerToken: Address, makerToken: Address): seq<Address>
    requires WellFormed(g, LowerCase())
  {
    AdjacentTokensAreDistinct(g, takerToken);
    Between(g, ToLower(takerToken), ToLower(makerToken))
  }

  /** The proposed tokens are the same both ways, each appears once, and none is an endpoint. */
  lemma IntermediateTokensAreSymmetric(g: Tokens, takerToken: Address, makerToken: Address)
    requires WellFormed(g, LowerCase())
    ensures var there := GetIntermediateTokens(g, takerToken, makerToken);
            var back := GetIntermediateTokens(g, makerToken, takerToken);
            && Distinct(there) && AllIn(there, LowerCase())
            && (forall t :: t in there <==> t in back)
            && ToLower(takerToken) !in there && ToLower(makerToken) !in there
  {
    AdjacentTokensAreDistinct(g, takerToken);
    AdjacentTokensAreDistinct(g, makerToken);
    forall t {
      BetweenIsSymmetric(g, LowerCase(), ToLower(takerToken), ToLower(makerToken), t);
    }
  }

  /** A token's list, or that of the defaults. */
  predicate Lists(g: Tokens, token: Address, t: Address) {
    if ToLower(token) in g.adjacent then Edge(g, ToLower(token), t) else t in g.defaultTokens
  }

  /** The proposed tokens are those that one of the endpoints lists, the endpoints apart. */
  lemma IntermediateTokensAreListed(g: Tokens, takerToken: Address, makerToken: Address, t: Address)
    requires WellFormed(g, LowerCase())
    ensures t in GetIntermediateTokens(g, takerToken, makerToken)
       <==> && (Lists(g, takerToken, t) || Lists(g, makerToken, t))
            && t != ToLower(takerToken) && t != ToLower(makerToken)
  {
    AdjacentTokensAreDistinct(g, takerToken);
  }

  /**
   * When only bidirectional edges were added, the tokens proposed besides the defaults are exactly those whose
   * own list names one of the endpoints.
   */
  lemma IntermediateTokensLinkBack(g: Tokens, takerToken: Address, makerToken: Address, t: Address)
    requires WellFormed(g, LowerCase()) && Bidirectional(g) && t !in g.defaultTokens
    requires ToLower(takerToken) !in g.defaultTokens && ToLower(makerToken) !in g.defaultTokens
    ensures t in GetIntermediateTokens(g, takerToken, makerToken)
       <==> && t != ToLower(takerToken) && t != ToLower(makerToken)
            && (Edge(g, t, ToLower(takerToken)) || Edge(g, t, ToLower(makerToken)))
  {
    AdjacentTokensAreDistinct(g, takerToken);
    BetweenLinksBack(g, ToLower(takerToken), ToLower(makerToken), t);
  }
}
