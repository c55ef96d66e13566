/**
 * The states of the lazily built LR(0)-style automaton behind the parser
 * (Python `_State`) and the closure `makeState` computes for a new kernel:
 * the kernel state itself, its companion epsilon-non-kernel state holding
 * the predicted items, the completed rules and terminal transitions of
 * each, and the placeholder edges they add.
 */
module States {
  import opened Wrappers
  import opened Ordering
  import opened Grammar

  /** The epsilon-free grammar `newrules`. */
  type NewRules = map<Symbol, seq<Rule>>

  /** An edge label: a grammar symbol, or `None` for the edge to a non-kernel state. */
  datatype Label = On(sym: Symbol) | Eps

  /** `self.edges`: a target state id, or `None` while the target is not built yet. */
  type Edges = map<(nat, Label), Option<nat>>

  /** `_State(stateno, items)` with its `complete` rules and terminals `t`. */
  datatype State = State(stateno: nat, items: seq<Item>, complete: seq<Rule>, t: seq<Symbol>)

  /** A key of `self.cores`: a sorted kernel, or the sorted predicted nonterminals. */
  datatype CoreKey = KernelKey(items: seq<Item>) | PredictedKey(syms: seq<Symbol>)

  /** No item has its dot past the end of its rule. */
  predicate ItemsInRange(items: seq<Item>) {
    forall it :: it in items ==> it.pos <= |it.rule.rhs|
  }

  // ---------------------------------------------------------------------
  // What the two passes of `makeState` collect, as functions of the items
  // visited so far (each is defined on its last element, the way the
  // passes append).
  // ---------------------------------------------------------------------

  /** The rules of the items whose dot is at the end, in item order. */
  function Completed(items: seq<Item>): seq<Rule> {
    if items == [] then []
    else
      var it := items[|items| - 1];
      Completed(items[..|items| - 1]) + (if it.pos == |it.rule.rhs| then [it.rule] else [])
  }

  /** The symbols after the dot, in item order. */
  function NextSymbols(items: seq<Item>): seq<Symbol> {
    if items == [] then []
    else
      var it := items[|items| - 1];
      NextSymbols(items[..|items| - 1]) + (if it.pos < |it.rule.rhs| then [it.rule.rhs[it.pos]] else [])
  }

  /** The symbols after the dot that are terminals of `newrules`. */
  function NextTerminals(newrules: NewRules, items: seq<Item>): seq<Symbol> {
    if items == [] then []
    else
      var it := items[|items| - 1];
      NextTerminals(newrules, items[..|items| - 1])
        + (if it.pos < |it.rule.rhs| && it.rule.rhs[it.pos] !in newrules then [it.rule.rhs[it.pos]] else [])
  }

  /** The symbols after the dot that are nonterminals of `newrules`. */
  function NextNonterminals(newrules: NewRules, items: seq<Item>): seq<Symbol> {
    if items == [] then []
    else
      var it := items[|items| - 1];
      NextNonterminals(newrules, items[..|items| - 1])
        + (if it.pos < |it.rule.rhs| && it.rule.rhs[it.pos] in newrules then [it.rule.rhs[it.pos]] else [])
  }

  /** First occurrences only, in order (dict insertion order). */
  function Dedup<T(==)>(s: seq<T>): seq<T> {
    if s == [] then []
    else
      var d := Dedup(s[..|s| - 1]);
      if s[|s| - 1] in d then d else d + [s[|s| - 1]]
  }

  /** Each rule at the position `skip(rule)` stops at: what a prediction adds. */
  ghost function PredictRules(rs: seq<Rule>): seq<Item> {
    if rs == [] then []
    else
      var r := rs[|rs| - 1];
      PredictRules(rs[..|rs| - 1]) + [Item(r, SkipTo(r, 0))]
  }

  /** The items predicted for each nonterminal of `ps`, in order. */
  ghost function PredictAll(newrules: NewRules, ps: seq<Symbol>): seq<Item> {
    if ps == [] then []
    else
      var p := ps[|ps| - 1];
      PredictAll(newrules, ps[..|ps| - 1]) + (if p in newrules then PredictRules(newrules[p]) else [])
  }

  /** The placeholder edge keys of state `x` for the given symbols. */
  ghost function EdgeKeys(x: nat, syms: seq<Symbol>): set<(nat, Label)> {
    set s | s in syms :: (x, On(s))
  }

  // ---------------------------------------------------------------------
  // Lemmas about the collecting functions.
  // ---------------------------------------------------------------------

  lemma {:induction false} DedupMembers<T>(s: seq<T>)
    ensures forall x :: x in Dedup(s) <==> x in s
  {
    if s != [] {
      DedupMembers(s[..|s| - 1]);
      assert s == s[..|s| - 1] + [s[|s| - 1]];
    }
  }

  lemma {:induction false} DedupDistinct<T>(s: seq<T>)
    ensures forall i, j :: 0 <= i < j < |Dedup(s)| ==> Dedup(s)[i] != Dedup(s)[j]
  {
    if s != [] {
      DedupDistinct(s[..|s| - 1]);
    }
  }

  lemma {:induction false} CompletedMembers(items: seq<Item>)
    ensures forall r :: r in Completed(items) <==> exists it :: it in items && it.rule == r && it.pos == |r.rhs|
  {
    if items != [] {
      var init := items[..|items| - 1];
      CompletedMembers(init);
      assert items == init + [items[|items| - 1]];
    }
  }

  lemma {:induction false} NextTerminalsMembers(newrules: NewRules, items: seq<Item>)
    ensures forall s :: s in NextTerminals(newrules, items) <==> s !in newrules && s in NextSymbols(items)
  {
    if items != [] {
      NextTerminalsMembers(newrules, items[..|items| - 1]);
    }
  }

  lemma {:induction false} NextNonterminalsMembers(newrules: NewRules, items: seq<Item>)
    ensures forall s :: s in NextNonterminals(newrules, items) <==> s in newrules && s in NextSymbols(items)
  {
    if items != [] {
      NextNonterminalsMembers(newrules, items[..|items| - 1]);
    }
  }

  lemma {:induction false} NextSymbolsMembers(items: seq<Item>)
    ensures forall s :: s in NextSymbols(items) <==>
      exists it :: it in items && it.pos < |it.rule.rhs| && it.rule.rhs[it.pos] == s
  {
    if items != [] {
      var init := items[..|items| - 1];
      NextSymbolsMembers(init);
      assert items == init + [items[|items| - 1]];
    }
  }

  lemma {:induction false} NextSymbolsAppend(a: seq<Item>, b: seq<Item>)
    ensures NextSymbols(a + b) == NextSymbols(a) + NextSymbols(b)
    decreases |b|
  {
    if b == [] {
      assert a + b == a;
    } else {
      var bi := b[..|b| - 1];
      assert (a + b)[..|a + b| - 1] == a + bi;
      NextSymbolsAppend(a, bi);
    }
  }

  lemma {:induction false} NextNonterminalsAppend(newrules: NewRules, a: seq<Item>, b: seq<Item>)
    ensures NextNonterminals(newrules, a + b) == NextNonterminals(newrules, a) + NextNonterminals(newrules, b)
    decreases |b|
  {
    if b == [] {
      assert a + b == a;
    } else {
      var bi := b[..|b| - 1];
      assert (a + b)[..|a + b| - 1] == a + bi;
      NextNonterminalsAppend(newrules, a, bi);
    }
  }

  lemma {:induction false} PredictRulesMembers(rs: seq<Rule>)
    ensures forall it :: it in PredictRules(rs) <==> it.rule in rs && it.pos == SkipTo(it.rule, 0)
  {
    if rs != [] {
      var init := rs[..|rs| - 1];
      PredictRulesMembers(init);
      assert rs == init + [rs[|rs| - 1]];
    }
  }

  lemma {:induction false} PredictAllMembers(newrules: NewRules, ps: seq<Symbol>)
    ensures forall it :: it in PredictAll(newrules, ps) <==>
      exists p :: p in ps && p in newrules && it.rule in newrules[p] && it.pos == SkipTo(it.rule, 0)
  {
    if ps != [] {
      var init := ps[..|ps| - 1];
      var p := ps[|ps| - 1];
      PredictAllMembers(newrules, init);
      assert ps == init + [p];
      if p in newrules {
        PredictRulesMembers(newrules[p]);
      }
    }
  }

  lemma {:induction false} PredictRulesInRange(rs: seq<Rule>)
    ensures ItemsInRange(PredictRules(rs))
  {
    if rs != [] {
      PredictRulesInRange(rs[..|rs| - 1]);
      SkipToWithin(rs[|rs| - 1], 0);
    }
  }

  // ---------------------------------------------------------------------
  // `makeState`, first part: the kernel.
  // ---------------------------------------------------------------------

  /** The dot of `it` is in front of `sym` (Python `rhs[pos:pos+1] == (sym,)`). */
  predicate Before(it: Item, sym: Symbol) {
    it.pos < |it.rule.rhs| && it.rule.rhs[it.pos] == sym
  }

  /** The items of a state advanced over `sym` and then past tagged symbols. */
  ghost function Shifted(items: seq<Item>, sym: Symbol): seq<Item> {
    if items == [] then []
    else
      var it := items[|items| - 1];
      Shifted(items[..|items| - 1], sym) + (if Before(it, sym) then [Item(it.rule, SkipTo(it.rule, it.pos + 1))] else [])
  }

  lemma {:induction false} ShiftedMembers(items: seq<Item>, sym: Symbol)
    ensures forall k :: k in Shifted(items, sym) <==>
      exists it :: it in items && Before(it, sym) && k == Item(it.rule, SkipTo(it.rule, it.pos + 1))
    ensures ItemsInRange(Shifted(items, sym))
  {
    if items != [] {
      var init := items[..|items| - 1];
      var it := items[|items| - 1];
      ShiftedMembers(init, sym);
      assert items == init + [it];
      if Before(it, sym) {
        SkipToWithin(it.rule, it.pos + 1);
      }
    }
  }

  /**
   * The `kitems` loop of `makeState`, followed by `core.sort()` (which sorts
   * `kitems` too, being the same list): the kernel of the state reached
   * from `items` over `sym`, in Python's item order.
   */
  method Kernel(items: seq<Item>, sym: Symbol) returns (kitems: seq<Item>)
    ensures kitems == KernelOf(items, sym)
  {
    var found: seq<Item> := [];
    for j := 0 to |items|
      invariant found == Shifted(items[..j], sym)
    {
      var it := items[j];
      assert items[..j + 1][..j] == items[..j];
      if Before(it, sym) {
        var pos := Skip(it.rule, it.pos + 1);
        found := found + [Item(it.rule, pos)];
      }
    }
    assert items[..|items|] == items;
    kitems := Sort(found, ItemLess);
  }

  /** The sorted kernel of the state reached from `items` over `sym`: the key `makeState` looks up. */
  ghost function KernelOf(items: seq<Item>, sym: Symbol): seq<Item> {
    Sort(Shifted(items, sym), ItemLess)
  }

  /** The kernel holds exactly the shifted items, in Python's item order. */
  lemma KernelSorted(items: seq<Item>, sym: Symbol)
    ensures multiset(KernelOf(items, sym)) == multiset(Shifted(items, sym))
    ensures SortedBy(KernelOf(items, sym), ItemLess)
  {
    ItemLessIsStrictTotal();
    SortSorted(Shifted(items, sym), ItemLess);
  }

  /** Two lists of items give the same core key exactly when they hold the same items. */
  lemma KernelKeyCanonical(a: seq<Item>, b: seq<Item>)
    ensures (KernelKey(Sort(a, ItemLess)) == KernelKey(Sort(b, ItemLess))) <==> multiset(a) == multiset(b)
  {
    ItemLessIsStrictTotal();
    SortCanonical(a, b, ItemLess);
  }

  // ---------------------------------------------------------------------
  // `makeState`, second part: the worklist passes over the kernel state and
  // its non-kernel companion.
  // ---------------------------------------------------------------------

  /** What a pass has collected: `x.complete`, `x.t`, `edges`, `predicted` and `nk.items`. */
  datatype Pass = Pass(complete: seq<Rule>, t: seq<Symbol>, edges: Edges, predicted: seq<Symbol>, nkitems: seq<Item>)

  /** The completed rules and the terminals (each once) of the visited items. */
  ghost predicate Collected(newrules: NewRules, visited: seq<Item>, complete: seq<Rule>, t: seq<Symbol>) {
    complete == Completed(visited) && t == Dedup(NextTerminals(newrules, visited))
  }

  /**
   * `edges` extends `edges0`, none of whose keys leaves `x`, by a `None`
   * placeholder for each symbol after a dot of the visited items.
   */
  ghost predicate EdgesAdded(x: nat, edges0: Edges, visited: seq<Item>, edges: Edges) {
    && (forall key :: key in edges0 ==> key.0 != x)
    && edges.Keys == edges0.Keys + EdgeKeys(x, NextSymbols(visited))
    && (forall key :: key in edges0 ==> edges[key] == edges0[key])
    && (forall key :: key in edges && key !in edges0 ==> edges[key] == None)
  }

  /** Each nonterminal after a dot in `seen` is predicted once, and its items added. */
  ghost predicate PredictedFrom(newrules: NewRules, seen: seq<Item>, predicted: seq<Symbol>, nkitems: seq<Item>) {
    predicted == Dedup(NextNonterminals(newrules, seen)) && nkitems == PredictAll(newrules, predicted)
  }

  /**
   * A pass over state `x` has visited the items `visited`; `before` are the
   * items of earlier passes (whose predictions are shared), `edges0` the
   * edges the pass started from.
   */
  ghost predicate PassInv(newrules: NewRules, x: nat, edges0: Edges, before: seq<Item>, visited: seq<Item>, p: Pass) {
    && Collected(newrules, visited, p.complete, p.t)
    && EdgesAdded(x, edges0, visited, p.edges)
    && PredictedFrom(newrules, before + visited, p.predicted, p.nkitems)
  }

  lemma CollectedStep(newrules: NewRules, visited: seq<Item>, it: Item, complete: seq<Rule>, t: seq<Symbol>)
    requires Collected(newrules, visited, complete, t)
    ensures Collected(newrules, visited + [it],
      complete + (if it.pos == |it.rule.rhs| then [it.rule] else []),
      if it.pos < |it.rule.rhs| && it.rule.rhs[it.pos] !in newrules && it.rule.rhs[it.pos] !in t
      then t + [it.rule.rhs[it.pos]] else t)
  {
    var vs := visited + [it];
    assert vs[..|vs| - 1] == visited;
    if it.pos < |it.rule.rhs| && it.rule.rhs[it.pos] !in newrules {
      var nt := NextTerminals(newrules, vs);
      assert nt == NextTerminals(newrules, visited) + [it.rule.rhs[it.pos]];
      assert nt[..|nt| - 1] == NextTerminals(newrules, visited);
    } else {
      assert NextTerminals(newrules, vs) == NextTerminals(newrules, visited);
    }
  }

  /** A nonterminal after the dot neither completes a rule nor adds a terminal. */
  lemma CollectedNonterminal(newrules: NewRules, visited: seq<Item>, it: Item, complete: seq<Rule>, t: seq<Symbol>)
    requires it.pos < |it.rule.rhs| && it.rule.rhs[it.pos] in newrules
    requires Collected(newrules, visited, complete, t)
    ensures Collected(newrules, visited + [it], complete, t)
  {
    var vs := visited + [it];
    assert vs[..|vs| - 1] == visited;
    assert Completed(vs) == Completed(visited) by {
      assert Completed(visited) + [] == Completed(visited);
    }
    assert NextTerminals(newrules, vs) == NextTerminals(newrules, visited) by {
      assert NextTerminals(newrules, visited) + [] == NextTerminals(newrules, visited);
    }
  }

  /** The items seen so far, one more visited. */
  lemma SeenStep(before: seq<Item>, visited: seq<Item>, it: Item)
    ensures before + (visited + [it]) == (before + visited) + [it]
  {
  }

  /** An item with its dot at the end adds no edge. */
  lemma EdgesStepDone(x: nat, edges0: Edges, visited: seq<Item>, it: Item, edges: Edges)
    requires it.pos >= |it.rule.rhs|
    requires EdgesAdded(x, edges0, visited, edges)
    ensures EdgesAdded(x, edges0, visited + [it], edges)
  {
    var vs := visited + [it];
    assert vs[..|vs| - 1] == visited;
    assert NextSymbols(vs) == NextSymbols(visited);
  }

  /** An item with a symbol after its dot adds the placeholder edge on it, if not there yet. */
  lemma EdgesStepNext(x: nat, edges0: Edges, visited: seq<Item>, it: Item, edges: Edges)
    requires it.pos < |it.rule.rhs|
    requires EdgesAdded(x, edges0, visited, edges)
    ensures EdgesAdded(x, edges0, visited + [it], edges[(x, On(it.rule.rhs[it.pos])) := None])
    ensures (x, On(it.rule.rhs[it.pos])) in edges <==> it.rule.rhs[it.pos] in NextSymbols(visited)
    ensures (x, On(it.rule.rhs[it.pos])) in edges ==> edges[(x, On(it.rule.rhs[it.pos])) := None] == edges
  {
    var vs := visited + [it];
    assert vs[..|vs| - 1] == visited;
    var next := it.rule.rhs[it.pos];
    var key := (x, On(next));
    var e' := edges[key := None];
    assert NextSymbols(vs) == NextSymbols(visited) + [next];
    assert EdgeKeys(x, NextSymbols(vs)) == EdgeKeys(x, NextSymbols(visited)) + {key};
    assert key !in edges0;
    assert e'.Keys == edges0.Keys + EdgeKeys(x, NextSymbols(vs));
    assert forall k :: k in edges0 ==> e'[k] == edges0[k];
    assert forall k :: k in e' && k !in edges0 ==> e'[k] == None;
    EdgeKeysMember(x, NextSymbols(visited), next);
    if key in edges {
      assert edges[key] == None;
      assert e' == edges;
    }
  }

  lemma EdgeKeysMember(x: nat, syms: seq<Symbol>, s: Symbol)
    ensures (x, On(s)) in EdgeKeys(x, syms) <==> s in syms
  {
  }

  lemma PredictedStep(newrules: NewRules, seen: seq<Item>, it: Item, predicted: seq<Symbol>, nkitems: seq<Item>)
    requires PredictedFrom(newrules, seen, predicted, nkitems)
    ensures it.pos < |it.rule.rhs| && it.rule.rhs[it.pos] in newrules && it.rule.rhs[it.pos] !in predicted ==>
      PredictedFrom(newrules, seen + [it], predicted + [it.rule.rhs[it.pos]],
                    nkitems + PredictRules(newrules[it.rule.rhs[it.pos]]))
    ensures !(it.pos < |it.rule.rhs| && it.rule.rhs[it.pos] in newrules && it.rule.rhs[it.pos] !in predicted) ==>
      PredictedFrom(newrules, seen + [it], predicted, nkitems)
  {
    var nn := NextNonterminals(newrules, seen);
    NextNonterminalsSnoc(newrules, seen, it);
    if it.pos < |it.rule.rhs| && it.rule.rhs[it.pos] in newrules {
      var sym := it.rule.rhs[it.pos];
      DedupSnoc(nn, sym);
      DedupMembers(nn);
      if sym !in predicted {
        PredictAllSnoc(newrules, predicted, sym);
      }
    } else {
      assert nn + [] == nn;
    }
  }

  lemma NextNonterminalsSnoc(newrules: NewRules, seen: seq<Item>, it: Item)
    ensures NextNonterminals(newrules, seen + [it]) == NextNonterminals(newrules, seen)
      + (if it.pos < |it.rule.rhs| && it.rule.rhs[it.pos] in newrules then [it.rule.rhs[it.pos]] else [])
  {
    var ss := seen + [it];
    assert ss[..|ss| - 1] == seen;
  }

  lemma DedupSnoc<T>(s: seq<T>, x: T)
    ensures Dedup(s + [x]) == if x in s then Dedup(s) else Dedup(s) + [x]
  {
    var ss := s + [x];
    assert ss[..|ss| - 1] == s;
    DedupMembers(s);
  }

  lemma PredictAllSnoc(newrules: NewRules, ps: seq<Symbol>, p: Symbol)
    ensures PredictAll(newrules, ps + [p]) == PredictAll(newrules, ps) + (if p in newrules then PredictRules(newrules[p]) else [])
  {
    var ss := ps + [p];
    assert ss[..|ss| - 1] == ps;
  }

  /** The items predicted for one nonterminal (`for prule in rules[next_sym]`). */
  method Predict(rs: seq<Rule>) returns (items: seq<Item>)
    ensures items == PredictRules(rs)
  {
    items := [];
    for j := 0 to |rs|
      invariant items == PredictRules(rs[..j])
    {
      assert rs[..j + 1][..j] == rs[..j];
      var ppos := Skip(rs[j], 0);
      items := items + [Item(rs[j], ppos)];
    }
    assert rs[..|rs|] == rs;
  }

  /** The body of the worklist loop of `makeState` for one item of state `x`. */
  method Visit(newrules: NewRules, x: nat, ghost edges0: Edges, ghost before: seq<Item>, ghost visited: seq<Item>, it: Item, p: Pass)
    returns (p': Pass)
    requires it.pos <= |it.rule.rhs|
    requires PassInv(newrules, x, edges0, before, visited, p)
    ensures PassInv(newrules, x, edges0, before, visited + [it], p')
    ensures p.nkitems <= p'.nkitems
    ensures p'.predicted == p.predicted ==> p'.nkitems == p.nkitems
    ensures p'.predicted != p.predicted ==>
      |newrules.Keys - Elements(p'.predicted)| < |newrules.Keys - Elements(p.predicted)|
  {
    var rule, pos := it.rule, it.pos;
    if pos == |rule.rhs| {
      CompletedStep(newrules, x, edges0, before, visited, it, p);
      p' := p.(complete := p.complete + [rule]);
      return;
    }
    p' := VisitNext(newrules, x, edges0, before, visited, it, p);
  }

  /** `Visit` past the `continue`: the item has a symbol after its dot. */
  method VisitNext(newrules: NewRules, x: nat, ghost edges0: Edges, ghost before: seq<Item>, ghost visited: seq<Item>, it: Item, p: Pass)
    returns (p': Pass)
    requires it.pos < |it.rule.rhs|
    requires PassInv(newrules, x, edges0, before, visited, p)
    ensures PassInv(newrules, x, edges0, before, visited + [it], p')
    ensures p.nkitems <= p'.nkitems
    ensures p'.predicted == p.predicted ==> p'.nkitems == p.nkitems
    ensures p'.predicted != p.predicted ==>
      |newrules.Keys - Elements(p'.predicted)| < |newrules.Keys - Elements(p.predicted)|
  {
    var next := it.rule.rhs[it.pos];
    var key := (x, On(next));
    if next !in newrules {
      TerminalStep(newrules, x, edges0, before, visited, it, p);
      if key !in p.edges {
        p' := p.(edges := p.edges[key := None], t := p.t + [next]);
      } else {
        p' := p;
      }
    } else if next !in p.predicted {
      NonterminalStep(newrules, x, edges0, before, visited, it, p);
      var predictions := Predict(newrules[next]);
      p' := p.(edges := p.edges[key := None], predicted := p.predicted + [next],
               nkitems := p.nkitems + predictions);
      PredictShrinks(newrules, p.predicted, next);
    } else {
      NonterminalStep(newrules, x, edges0, before, visited, it, p);
      p' := p.(edges := p.edges[key := None]);
    }
  }

  /** Predicting one more nonterminal leaves fewer to predict. */
  lemma PredictShrinks(newrules: NewRules, predicted: seq<Symbol>, next: Symbol)
    requires next in newrules && next !in predicted
    ensures |newrules.Keys - Elements(predicted + [next])| < |newrules.Keys - Elements(predicted)|
  {
    assert Elements(predicted + [next]) == Elements(predicted) + {next};
    ProperSubsetSmaller(newrules.Keys - Elements(predicted + [next]), newrules.Keys - Elements(predicted));
  }

  /** A completed item: its rule joins `complete`. */
  lemma CompletedStep(newrules: NewRules, x: nat, edges0: Edges, before: seq<Item>, visited: seq<Item>, it: Item, p: Pass)
    requires it.pos == |it.rule.rhs|
    requires PassInv(newrules, x, edges0, before, visited, p)
    ensures PassInv(newrules, x, edges0, before, visited + [it], p.(complete := p.complete + [it.rule]))
  {
    CollectedStep(newrules, visited, it, p.complete, p.t);
    EdgesStepDone(x, edges0, visited, it, p.edges);
    PredictedStep(newrules, before + visited, it, p.predicted, p.nkitems);
    SeenStep(before, visited, it);
  }

  /** A terminal after the dot: a placeholder edge and a new entry of `t`, the first time only. */
  lemma TerminalStep(newrules: NewRules, x: nat, edges0: Edges, before: seq<Item>, visited: seq<Item>, it: Item, p: Pass)
    requires it.pos < |it.rule.rhs| && it.rule.rhs[it.pos] !in newrules
    requires PassInv(newrules, x, edges0, before, visited, p)
    ensures (x, On(it.rule.rhs[it.pos])) !in p.edges ==>
      PassInv(newrules, x, edges0, before, visited + [it],
              p.(edges := p.edges[(x, On(it.rule.rhs[it.pos])) := None], t := p.t + [it.rule.rhs[it.pos]]))
    ensures (x, On(it.rule.rhs[it.pos])) in p.edges ==> PassInv(newrules, x, edges0, before, visited + [it], p)
  {
    CollectedStep(newrules, visited, it, p.complete, p.t);
    EdgesStepNext(x, edges0, visited, it, p.edges);
    PredictedStep(newrules, before + visited, it, p.predicted, p.nkitems);
    SeenStep(before, visited, it);
    TerminalSeen(newrules, visited, p.t, it.rule.rhs[it.pos]);
  }

  /** A terminal is in `t` exactly when it already follows a dot of a visited item. */
  lemma TerminalSeen(newrules: NewRules, visited: seq<Item>, t: seq<Symbol>, s: Symbol)
    requires t == Dedup(NextTerminals(newrules, visited)) && s !in newrules
    ensures s in t <==> s in NextSymbols(visited)
  {
    NextTerminalsMembers(newrules, visited);
    DedupMembers(NextTerminals(newrules, visited));
  }

  /** A nonterminal after the dot: a placeholder edge, and its predictions the first time. */
  lemma NonterminalStep(newrules: NewRules, x: nat, edges0: Edges, before: seq<Item>, visited: seq<Item>, it: Item, p: Pass)
    requires it.pos < |it.rule.rhs| && it.rule.rhs[it.pos] in newrules
    requires PassInv(newrules, x, edges0, before, visited, p)
    ensures it.rule.rhs[it.pos] !in p.predicted ==>
      PassInv(newrules, x, edges0, before, visited + [it],
              p.(edges := p.edges[(x, On(it.rule.rhs[it.pos])) := None], predicted := p.predicted + [it.rule.rhs[it.pos]],
                 nkitems := p.nkitems + PredictRules(newrules[it.rule.rhs[it.pos]])))
    ensures it.rule.rhs[it.pos] in p.predicted ==>
      PassInv(newrules, x, edges0, before, visited + [it], p.(edges := p.edges[(x, On(it.rule.rhs[it.pos])) := None]))
  {
    CollectedNonterminal(newrules, visited, it, p.complete, p.t);
    EdgesStepNext(x, edges0, visited, it, p.edges);
    PredictedStep(newrules, before + visited, it, p.predicted, p.nkitems);
    SeenStep(before, visited, it);
  }

  /**
   * The pass `for x in ks` of `makeState` over the sorted kernel of new
   * state `k`: its completed rules and terminals, the placeholder edges it
   * adds to `edges`, the nonterminals it predicts and the predicted items.
   */
  method KernelPass(newrules: NewRules, k: nat, kitems: seq<Item>, edges: Edges) returns (p: Pass)
    requires ItemsInRange(kitems)
    requires forall key :: key in edges ==> key.0 < k
    ensures PassInv(newrules, k, edges, [], kitems, p)
  {
    p := Pass([], [], edges, [], []);
    PassStart(newrules, k, edges, [], [], []);
    ghost var visited: seq<Item> := [];
    for j := 0 to |kitems|
      invariant visited == kitems[..j]
      invariant PassInv(newrules, k, edges, [], visited, p)
    {
      assert kitems[j] in kitems;
      p := Visit(newrules, k, edges, [], visited, kitems[j], p);
      PrefixStep(kitems, kitems, j);
      visited := visited + [kitems[j]];
    }
    assert visited == kitems;
  }

  /**
   * The pass `for x in nk` of `makeState`: the non-kernel state `k + 1`
   * visits its items while predictions append to them, until every
   * nonterminal after a dot (of the kernel or of `nk`) has been predicted.
   */
  method NonKernelPass(newrules: NewRules, k: nat, kitems: seq<Item>, p0: Pass) returns (p: Pass)
    requires ItemsInRange(kitems)
    requires PredictedFrom(newrules, kitems, p0.predicted, p0.nkitems)
    ensures PassInv(newrules, k + 1, map[], kitems, p.nkitems, p)
  {
    p := Pass([], [], map[], p0.predicted, p0.nkitems);
    PassStart(newrules, k + 1, map[], kitems, p0.predicted, p0.nkitems);
    ghost var visited: seq<Item> := [];
    var j := 0;
    while j < |p.nkitems|
      invariant j <= |p.nkitems| && visited == p.nkitems[..j]
      invariant PassInv(newrules, k + 1, map[], kitems, visited, p)
      decreases |newrules.Keys - Elements(p.predicted)|, |p.nkitems| - j
    {
      var it := p.nkitems[j];
      PredictAllInRange(newrules, p.predicted);
      assert it in p.nkitems;
      ghost var prev := p;
      p := Visit(newrules, k + 1, map[], kitems, visited, it, p);
      PrefixStep(prev.nkitems, p.nkitems, j);
      visited := visited + [it];
      j := j + 1;
    }
    assert visited == p.nkitems;
  }

  lemma PrefixStep<T>(a: seq<T>, b: seq<T>, j: nat)
    requires a <= b && j < |a|
    ensures b[..j + 1] == a[..j] + [a[j]]
  {
    assert b[..j + 1] == a[..j + 1];
  }

  lemma PassStart(newrules: NewRules, x: nat, edges0: Edges, before: seq<Item>, predicted: seq<Symbol>, nkitems: seq<Item>)
    requires forall key :: key in edges0 ==> key.0 < x
    requires PredictedFrom(newrules, before, predicted, nkitems)
    ensures PassInv(newrules, x, edges0, before, [], Pass([], [], edges0, predicted, nkitems))
  {
    assert before + [] == before;
    assert EdgeKeys(x, NextSymbols([])) == {};
  }

  lemma {:induction false} PredictAllInRange(newrules: NewRules, ps: seq<Symbol>)
    ensures ItemsInRange(PredictAll(newrules, ps))
  {
    if ps != [] {
      PredictAllInRange(newrules, ps[..|ps| - 1]);
      var p := ps[|ps| - 1];
      if p in newrules { PredictRulesInRange(newrules[p]); }
    }
  }

  /**
   * `items` is the closure of the kernel `kitems`: for every nonterminal
   * after a dot (of the kernel or of `items`), every alternative at its
   * `skip` position, and nothing else.
   */
  ghost predicate ClosureOf(newrules: NewRules, kitems: seq<Item>, items: seq<Item>) {
    && (forall it, s, r :: it in kitems + items && Before(it, s) && s in newrules && r in newrules[s] ==>
          Item(r, SkipTo(r, 0)) in items)
    && (forall it :: it in items ==>
          exists s, src :: src in kitems + items && Before(src, s) && s in newrules && it.rule in newrules[s] && it.pos == SkipTo(it.rule, 0))
  }

  /** Being the closure depends only on which items a list holds. */
  lemma ClosureSameItems(newrules: NewRules, kitems: seq<Item>, a: seq<Item>, b: seq<Item>)
    requires ClosureOf(newrules, kitems, a)
    requires forall it :: it in a <==> it in b
    ensures ClosureOf(newrules, kitems, b)
  {
    forall it, s, r | it in kitems + b && Before(it, s) && s in newrules && r in newrules[s]
      ensures Item(r, SkipTo(r, 0)) in b
    {
      assert it in kitems + a;
    }
    forall it | it in b
      ensures exists s, src :: src in kitems + b && Before(src, s) && s in newrules && it.rule in newrules[s] && it.pos == SkipTo(it.rule, 0)
    {
      var s, src :| src in kitems + a && Before(src, s) && s in newrules && it.rule in newrules[s] && it.pos == SkipTo(it.rule, 0);
      assert src in kitems + b;
    }
  }

  /** The items predicted for a list of nonterminals depend only on which nonterminals it holds. */
  lemma PredictAllSameSymbols(newrules: NewRules, a: seq<Symbol>, b: seq<Symbol>)
    requires forall s :: s in a <==> s in b
    ensures forall it :: it in PredictAll(newrules, a) <==> it in PredictAll(newrules, b)
  {
    PredictAllMembers(newrules, a);
    PredictAllMembers(newrules, b);
  }

  /**
   * The non-kernel state is the closure of the kernel: it holds, for every
   * nonterminal after a dot in the kernel or in itself, every alternative at
   * its `skip` position, and nothing else.
   */
  lemma Closure(newrules: NewRules, k: nat, kitems: seq<Item>, p: Pass)
    requires PassInv(newrules, k + 1, map[], kitems, p.nkitems, p)
    ensures ClosureOf(newrules, kitems, p.nkitems)
  {
    var all := kitems + p.nkitems;
    PredictAllMembers(newrules, p.predicted);
    DedupMembers(NextNonterminals(newrules, all));
    NextNonterminalsMembers(newrules, all);
    NextSymbolsMembers(all);
    forall it, s, r | it in all && Before(it, s) && s in newrules && r in newrules[s]
      ensures Item(r, SkipTo(r, 0)) in p.nkitems
    {
      assert s in NextSymbols(all);
      assert s in p.predicted;
    }
    forall it | it in p.nkitems
      ensures exists s, src :: src in all && Before(src, s) && s in newrules && it.rule in newrules[s] && it.pos == SkipTo(it.rule, 0)
    {
      var s :| s in p.predicted && s in newrules && it.rule in newrules[s] && it.pos == SkipTo(it.rule, 0);
      assert s in NextSymbols(all);
      var src :| src in all && src.pos < |src.rule.rhs| && src.rule.rhs[src.pos] == s;
      assert Before(src, s);
    }
  }
}
