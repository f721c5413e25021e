/** The rule network of the Market Basket page: a directed graph with an edge from
    every antecedent item to every consequent item of every association rule,
    weighted by the rule's lift. */
module Cooccurrence {

  type Item = string
  type Edge = (Item, Item)

  /** One row of mlxtend's rule table (antecedents and consequents are frozensets). */
  datatype Rule = Rule(
    antecedents: set<Item>,
    consequents: set<Item>,
    support: real,
    confidence: real,
    lift: real)

  /** Every (source, target) pair of the two sets. */
  function PairsOf(sources: set<Item>, targets: set<Item>): set<Edge>
  {
    set a, c | a in sources && c in targets :: (a, c)
  }

  function Pairs(r: Rule): set<Edge>
  {
    PairsOf(r.antecedents, r.consequents)
  }

  /** `m` with every edge of `edges` set to `w`, new or not. */
  function Overwrite(m: map<Edge, real>, edges: set<Edge>, w: real): map<Edge, real>
  {
    map e | e in m.Keys + edges :: if e in edges then w else m[e]
  }

  /** The edge weights once the rules have been added in order: each rule writes
      its lift on all its pairs, over whatever earlier rules wrote there. */
  function EdgeWeights(rules: seq<Rule>): map<Edge, real>
  {
    if rules == [] then map[]
    else
      var last := rules[|rules| - 1];
      Overwrite(EdgeWeights(rules[..|rules| - 1]), Pairs(last), last.lift)
  }

  /** The nodes a set of edges touches. */
  function Endpoints(edges: set<Edge>): set<Item>
  {
    (set e | e in edges :: e.0) + (set e | e in edges :: e.1)
  }

  /** networkx's `DiGraph`, cut down to what the page uses. */
  class DiGraph {
    var nodes: set<Item>
    var weight: map<Edge, real>

    /** The nodes are exactly the endpoints of the edges: every edge joins two
        nodes, and every node was added as the endpoint of some edge. */
    ghost predicate Valid()
      reads this
    {
      nodes == Endpoints(weight.Keys)
    }

    constructor ()
      ensures Valid()
      ensures nodes == {} && weight == map[]
    {
      nodes := {};
      weight := map[];
    }

    /** `G.add_edge(u, v, weight=w)`: adds the endpoints, then sets the edge's
        weight, replacing any weight it had. */
    method AddEdge(u: Item, v: Item, w: real)
      modifies this
      ensures old(Valid()) ==> Valid()
      ensures nodes == old(nodes) + {u, v}
      ensures weight == old(weight)[(u, v) := w]
    {
      EndpointsInsert(weight.Keys, (u, v));
      nodes := nodes + {u, v};
      weight := weight[(u, v) := w];
    }
  }

  /** The loop over `rules.iterrows()`: every rule's edges are added in order. */
  method BuildGraph(rules: seq<Rule>) returns (g: DiGraph)
    ensures fresh(g) && g.Valid()
    ensures g.weight == EdgeWeights(rules)
  {
    g := new DiGraph();
    assert Endpoints(g.weight.Keys) == {};
    for i := 0 to |rules|
      invariant g.Valid()
      invariant g.weight == EdgeWeights(rules[..i])
    {
      AddRule(g, rules[i]);
      assert rules[..i + 1][..i] == rules[..i];
    }
    assert rules[..|rules|] == rules;
  }

  /** The loop over one rule's antecedents: each fans out to all the consequents. */
  method AddRule(g: DiGraph, rule: Rule)
    requires g.Valid()
    modifies g
    ensures g.Valid()
    ensures g.weight == Overwrite(old(g.weight), Pairs(rule), rule.lift)
  {
    ghost var start := g.weight;
    ghost var done: set<Item> := {};
    var rest := rule.antecedents;
    assert start == Overwrite(start, PairsOf(done, rule.consequents), rule.lift);
    while rest != {}
      invariant done + rest == rule.antecedents && done !! rest
      invariant g.Valid()
      invariant g.weight == Overwrite(start, PairsOf(done, rule.consequents), rule.lift)
      decreases rest
    {
      var a :| a in rest;
      AddTargets(g, a, rule.consequents, rule.lift);
      OverwriteTwice(start, PairsOf(done, rule.consequents), PairsOf({a}, rule.consequents), rule.lift);
      PairsOfInsertSource(done, a, rule.consequents);
      done := done + {a};
      rest := rest - {a};
    }
  }

  /** The innermost loop: one antecedent joined to every consequent. */
  method AddTargets(g: DiGraph, a: Item, targets: set<Item>, w: real)
    requires g.Valid()
    modifies g
    ensures g.Valid()
    ensures g.weight == Overwrite(old(g.weight), PairsOf({a}, targets), w)
  {
    ghost var start := g.weight;
    ghost var done: set<Item> := {};
    var rest := targets;
    assert start == Overwrite(start, PairsOf({a}, done), w);
    while rest != {}
      invariant done + rest == targets && done !! rest
      invariant g.Valid()
      invariant g.weight == Overwrite(start, PairsOf({a}, done), w)
      decreases rest
    {
      var c :| c in rest;
      g.AddEdge(a, c, w);
      OverwriteInsert(start, PairsOf({a}, done), (a, c), w);
      PairsOfInsertTarget(a, done, c);
      done := done + {c};
      rest := rest - {c};
    }
  }

  lemma OverwriteTwice(m: map<Edge, real>, first: set<Edge>, second: set<Edge>, w: real)
    ensures Overwrite(Overwrite(m, first, w), second, w) == Overwrite(m, first + second, w)
  {
  }

  lemma EndpointsInsert(edges: set<Edge>, e: Edge)
    ensures Endpoints(edges + {e}) == Endpoints(edges) + {e.0, e.1}
  {
  }

  lemma OverwriteInsert(m: map<Edge, real>, edges: set<Edge>, e: Edge, w: real)
    ensures Overwrite(m, edges, w)[e := w] == Overwrite(m, edges + {e}, w)
  {
  }

  lemma PairsOfInsertTarget(a: Item, targets: set<Item>, c: Item)
    ensures PairsOf({a}, targets + {c}) == PairsOf({a}, targets) + {(a, c)}
  {
  }

  lemma PairsOfInsertSource(sources: set<Item>, a: Item, targets: set<Item>)
    ensures PairsOf(sources + {a}, targets) == PairsOf(sources, targets) + PairsOf({a}, targets)
  {
  }

  /** An edge is in the graph exactly when some rule pairs its source (an
      antecedent) with its target (a consequent). */
  lemma {:induction false} EdgeFromSomeRule(rules: seq<Rule>, e: Edge)
    ensures e in EdgeWeights(rules) <==> exists i :: 0 <= i < |rules| && e in Pairs(rules[i])
  {
    if rules != [] {
      var n := |rules| - 1;
      var init := rules[..n];
      EdgeFromSomeRule(init, e);
      if e in EdgeWeights(init) {
        var i :| 0 <= i < n && e in Pairs(init[i]);
        assert rules[i] == init[i];
      }
      if i :| 0 <= i < |rules| && e in Pairs(rules[i]) {
        if i < n {
          assert init[i] == rules[i];
        }
      }
    }
  }

  /** Last write wins: an edge carries the lift of the last rule that pairs its endpoints. */
  lemma {:induction false} LastWriteWins(rules: seq<Rule>, e: Edge, i: int)
    requires 0 <= i < |rules| && e in Pairs(rules[i])
    requires forall j :: i < j < |rules| ==> e !in Pairs(rules[j])
    ensures e in EdgeWeights(rules) && EdgeWeights(rules)[e] == rules[i].lift
  {
    var n := |rules| - 1;
    if i < n {
      var init := rules[..n];
      forall j | i < j < n ensures e !in Pairs(init[j]) {
        assert init[j] == rules[j];
      }
      LastWriteWins(init, e, i);
    }
  }

  /** Every weight is the lift of a rule, so a lift threshold on the rules bounds
      every weight of the graph. */
  lemma {:induction false} WeightsAtLeast(rules: seq<Rule>, threshold: real)
    requires forall i :: 0 <= i < |rules| ==> rules[i].lift >= threshold
    ensures forall e :: e in EdgeWeights(rules) ==> EdgeWeights(rules)[e] >= threshold
  {
    if rules != [] {
      var n := |rules| - 1;
      WeightsAtLeast(rules[..n], threshold);
    }
  }

  /** With no empty side on any rule (association rules never have one), the
      graph's nodes are exactly the items the rules mention. */
  lemma NodesAreRuleItems(rules: seq<Rule>, x: Item)
    requires forall i :: 0 <= i < |rules| ==> rules[i].antecedents != {} && rules[i].consequents != {}
    ensures x in Endpoints(EdgeWeights(rules).Keys)
        <==> exists i :: 0 <= i < |rules| && (x in rules[i].antecedents || x in rules[i].consequents)
  {
    var edges := EdgeWeights(rules).Keys;
    if x in Endpoints(edges) {
      var e :| e in edges && (e.0 == x || e.1 == x);
      EdgeFromSomeRule(rules, e);
      var i :| 0 <= i < |rules| && e in Pairs(rules[i]);
      assert e.0 in rules[i].antecedents && e.1 in rules[i].consequents;
    }
    if i :| 0 <= i < |rules| && (x in rules[i].antecedents || x in rules[i].consequents) {
      var r := rules[i];
      var a :| a in r.antecedents;
      var c :| c in r.consequents;
      var e := if x in r.antecedents then (x, c) else (a, x);
      assert e in Pairs(r);
      EdgeFromSomeRule(rules, e);
      assert e in edges;
    }
  }
}
