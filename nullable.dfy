/**
 * `computeNull`: which nonterminals derive the empty string. The grammar is
 * Python's `rules` dict: each nonterminal maps to its non-empty list of
 * alternatives, and `order` is the dict's insertion order.
 */
module Nullable {
  import opened Ordering
  import opened Grammar

  type Rules = map<Symbol, seq<Rule>>

  /** What `addRule` keeps true of `rules`: keyed by lhs, no empty list. */
  ghost predicate WellFormed(rules: Rules) {
    forall lhs :: lhs in rules ==>
      |rules[lhs]| > 0 && forall r :: r in rules[lhs] ==> r.lhs == lhs
  }

  /** `order` lists the keys of `rules`, each once (a dict's iteration order). */
  ghost predicate KeyOrder(rules: Rules, order: seq<Symbol>) {
    && (forall i, j :: 0 <= i < j < |order| ==> order[i] != order[j])
    && (forall k :: k in rules <==> k in order)
  }

  /** A set of symbols closed under "some alternative of X consists of members only". */
  ghost predicate Closed(rules: Rules, s: set<Symbol>) {
    forall lhs, r :: lhs in rules && r in rules[lhs] && (forall x :: x in r.rhs ==> x in s) ==> lhs in s
  }

  /** `x` belongs to the least closed set: it derives the empty string. */
  ghost predicate InLeast(rules: Rules, x: Symbol) {
    forall s :: Closed(rules, s) ==> x in s
  }

  /** Every alternative's symbols are nonterminals. */
  predicate AllNonterminal(rules: Rules, rhs: seq<Symbol>) {
    forall x :: x in rhs ==> x in rules
  }

  predicate AllMarked(nullable: map<Symbol, bool>, rhs: seq<Symbol>) {
    forall x :: x in rhs ==> x in nullable && nullable[x]
  }

  /** Marks `lhs` whenever one of its alternatives lies in a closed set's members. */
  lemma Derive(rules: Rules, r: Rule, nullable: map<Symbol, bool>)
    requires WellFormed(rules) && r.lhs in rules && r in rules[r.lhs]
    requires forall x :: x in r.rhs ==> x in nullable && nullable[x] && InLeast(rules, x)
    ensures InLeast(rules, r.lhs)
  {
    forall s | Closed(rules, s) ensures r.lhs in s {
      assert forall x :: x in r.rhs ==> x in s;
    }
  }

  /** `for sym in rhs: if sym not in rules: break` -- did the loop run to the end? */
  method AllKnown(rules: Rules, rhs: seq<Symbol>) returns (all: bool)
    ensures all <==> AllNonterminal(rules, rhs)
  {
    all := true;
    for si := 0 to |rhs|
      invariant all <==> forall j :: 0 <= j < si ==> rhs[j] in rules
    {
      if rhs[si] !in rules {
        all := false;
        break;
      }
    }
  }

  /** `for sym in rhs: if not nullable[sym]: break` -- did the loop run to the end? */
  method AllNullableNow(nullable: map<Symbol, bool>, rhs: seq<Symbol>) returns (all: bool)
    requires forall x :: x in rhs ==> x in nullable
    ensures all <==> AllMarked(nullable, rhs)
  {
    all := true;
    for si := 0 to |rhs|
      invariant all <==> forall j :: 0 <= j < si ==> nullable[rhs[j]]
    {
      if !nullable[rhs[si]] {
        all := false;
        break;
      }
    }
  }

  function Unmarked(nullable: map<Symbol, bool>): set<Symbol> {
    set k | k in nullable && !nullable[k]
  }

  /** Every mark made so far is justified: the symbol derives the empty string. */
  ghost predicate Sound(rules: Rules, nullable: map<Symbol, bool>) {
    forall x :: x in nullable && nullable[x] ==> InLeast(rules, x)
  }

  /** The rules `computeNull` revisits: all-nonterminal, non-empty alternatives. */
  ghost predicate Pending(rules: Rules, tbd: seq<Rule>) {
    forall r :: r in tbd ==> r.lhs in rules && r in rules[r.lhs] && AllNonterminal(rules, r.rhs)
  }

  /** The first pass has dealt with the alternatives of `done`. */
  ghost predicate Seeded(rules: Rules, nullable: map<Symbol, bool>, tbd: seq<Rule>, done: set<Symbol>)
    requires done <= nullable.Keys && done <= rules.Keys
  {
    forall k, r :: k in done && r in rules[k] ==>
      (r.rhs == [] ==> nullable[k]) && (r.rhs != [] && AllNonterminal(rules, r.rhs) ==> r in tbd)
  }

  /** The first pass over the alternatives of one nonterminal `lhs`. */
  method SeedOne(rules: Rules, lhs: Symbol, nullable0: map<Symbol, bool>, tbd0: seq<Rule>)
    returns (nullable: map<Symbol, bool>, tbd: seq<Rule>)
    requires WellFormed(rules) && lhs in rules && lhs !in nullable0
    requires nullable0.Keys <= rules.Keys
    requires Sound(rules, nullable0) && Pending(rules, tbd0)
    requires Seeded(rules, nullable0, tbd0, nullable0.Keys)
    ensures nullable.Keys == nullable0.Keys + {lhs}
    ensures Sound(rules, nullable) && Pending(rules, tbd)
    ensures Seeded(rules, nullable, tbd, nullable.Keys)
  {
    var rulelist := rules[lhs];
    nullable, tbd := nullable0[lhs := false], tbd0;
    for ri := 0 to |rulelist|
      invariant nullable.Keys == nullable0.Keys + {lhs}
      invariant forall k :: k in nullable0 ==> nullable[k] == nullable0[k]
      invariant Sound(rules, nullable) && Pending(rules, tbd)
      invariant forall r :: r in tbd0 ==> r in tbd
      invariant forall r :: r in rulelist[..ri] ==>
        (r.rhs == [] ==> nullable[lhs]) && (r.rhs != [] && AllNonterminal(rules, r.rhs) ==> r in tbd)
    {
      var rule := rulelist[ri];
      assert rule in rules[lhs];
      if rule.rhs == [] {
        Derive(rules, rule, nullable);
        nullable := nullable[lhs := true];
        continue;
      }
      var all := AllKnown(rules, rule.rhs);
      if all {
        tbd := tbd + [rule];
      }
    }
    assert rulelist[..|rulelist|] == rulelist;
  }

  /**
   * First pass of `computeNull`: an entry for every nonterminal, marked when
   * it has an empty alternative; the all-nonterminal alternatives collected.
   */
  method SeedNullable(rules: Rules, order: seq<Symbol>) returns (nullable: map<Symbol, bool>, tbd: seq<Rule>)
    requires WellFormed(rules) && KeyOrder(rules, order)
    ensures nullable.Keys == rules.Keys
    ensures Sound(rules, nullable) && Pending(rules, tbd)
    ensures Seeded(rules, nullable, tbd, rules.Keys)
  {
    nullable := map[];
    tbd := [];
    for idx := 0 to |order|
      invariant nullable.Keys == set k | k in order[..idx]
      invariant nullable.Keys <= rules.Keys
      invariant Sound(rules, nullable) && Pending(rules, tbd)
      invariant Seeded(rules, nullable, tbd, nullable.Keys)
    {
      var lhs := order[idx];
      assert lhs !in nullable by {
        forall k | k in order[..idx] ensures k != lhs {
          var j :| 0 <= j < idx && order[j] == k;
        }
      }
      nullable, tbd := SeedOne(rules, lhs, nullable, tbd);
      assert order[..idx + 1] == order[..idx] + [lhs];
    }
    assert order[..|order|] == order;
  }

  /** One `for lhs, rhs in tbd` pass of the fixpoint loop. */
  method NullPass(rules: Rules, nullable0: map<Symbol, bool>, tbd: seq<Rule>)
    returns (nullable: map<Symbol, bool>, changes: bool)
    requires WellFormed(rules) && nullable0.Keys == rules.Keys
    requires Sound(rules, nullable0) && Pending(rules, tbd)
    requires Seeded(rules, nullable0, tbd, rules.Keys)
    ensures nullable.Keys == rules.Keys
    ensures Sound(rules, nullable) && Seeded(rules, nullable, tbd, rules.Keys)
    ensures changes ==> Unmarked(nullable) < Unmarked(nullable0)
    ensures !changes ==> nullable == nullable0
    ensures !changes ==> forall r :: r in tbd ==> nullable[r.lhs] || !AllMarked(nullable, r.rhs)
  {
    nullable, changes := nullable0, false;
    for ti := 0 to |tbd|
      invariant nullable.Keys == rules.Keys
      invariant Sound(rules, nullable)
      invariant forall k :: k in nullable0 && nullable0[k] ==> nullable[k]
      invariant !changes ==> nullable == nullable0
      invariant changes ==> Unmarked(nullable) < Unmarked(nullable0)
      invariant !changes ==> forall t :: 0 <= t < ti ==> nullable[tbd[t].lhs] || !AllMarked(nullable, tbd[t].rhs)
    {
      var rule := tbd[ti];
      assert rule in tbd;
      if nullable[rule.lhs] {
        continue;
      }
      var all := AllNullableNow(nullable, rule.rhs);
      if all {
        Derive(rules, rule, nullable);
        Mark(rules, nullable0, nullable, rule.lhs);
        nullable := nullable[rule.lhs := true];
        changes := true;
      }
    }
    if !changes {
      forall r | r in tbd ensures nullable[r.lhs] || !AllMarked(nullable, r.rhs) {
        var t :| 0 <= t < |tbd| && tbd[t] == r;
      }
    }
  }

  /** Marking a nonterminal that derives the empty string, for the first time. */
  lemma Mark(rules: Rules, nullable0: map<Symbol, bool>, nullable: map<Symbol, bool>, x: Symbol)
    requires nullable0.Keys == nullable.Keys == rules.Keys && x in nullable && !nullable[x] && InLeast(rules, x)
    requires Sound(rules, nullable) && Unmarked(nullable) <= Unmarked(nullable0)
    requires forall k :: k in nullable0 && nullable0[k] ==> nullable[k]
    ensures nullable[x := true].Keys == rules.Keys && Sound(rules, nullable[x := true])
    ensures forall k :: k in nullable0 && nullable0[k] ==> nullable[x := true][k]
    ensures Unmarked(nullable[x := true]) < Unmarked(nullable0)
  {
    assert Unmarked(nullable[x := true]) == Unmarked(nullable) - {x};
  }

  /**
   * `computeNull`: the marks computed are exactly the nonterminals of the
   * least closed set; every nonterminal gets an entry and nothing else does.
   */
  method ComputeNullable(rules: Rules, order: seq<Symbol>) returns (nullable: map<Symbol, bool>)
    requires WellFormed(rules) && KeyOrder(rules, order)
    ensures nullable.Keys == rules.Keys
    ensures forall x :: x in nullable ==> (nullable[x] <==> InLeast(rules, x))
  {
    var tbd;
    nullable, tbd := SeedNullable(rules, order);
    var changes := true;
    while changes
      invariant nullable.Keys == rules.Keys
      invariant Sound(rules, nullable)
      invariant Seeded(rules, nullable, tbd, rules.Keys)
      invariant !changes ==> forall r :: r in tbd ==> nullable[r.lhs] || !AllMarked(nullable, r.rhs)
      decreases |Unmarked(nullable)| + (if changes then 1 else 0)
    {
      ghost var before := nullable;
      nullable, changes := NullPass(rules, nullable, tbd);
      if changes {
        ProperSubsetSmaller(Unmarked(nullable), Unmarked(before));
      }
    }
    // The marked set is closed, so whatever lies in every closed set is marked.
    var marked := set k | k in nullable && nullable[k];
    assert Closed(rules, marked) by {
      forall lhs, r | lhs in rules && r in rules[lhs] && (forall x :: x in r.rhs ==> x in marked)
        ensures lhs in marked
      {
        if r.rhs != [] {
          assert AllNonterminal(rules, r.rhs);
          assert AllMarked(nullable, r.rhs);
          assert r.lhs == lhs;
        }
      }
    }
  }

  /** Some alternative of `x` consists of nullable symbols only. */
  ghost predicate Justified(rules: Rules, x: Symbol)
    requires x in rules
  {
    exists r :: r in rules[x] && forall y :: y in r.rhs ==> InLeast(rules, y)
  }

  /**
   * The least closed set is a fixpoint of one step: a nonterminal derives
   * the empty string exactly when one of its alternatives consists of such
   * nonterminals only (an empty alternative included).
   */
  lemma LeastIsFixpoint(rules: Rules, x: Symbol)
    requires WellFormed(rules)
    ensures InLeast(rules, x) <==> x in rules && Justified(rules, x)
  {
    if x in rules && Justified(rules, x) {
      var r :| r in rules[x] && forall y :: y in r.rhs ==> InLeast(rules, y);
      forall s | Closed(rules, s) ensures x in s {
        assert forall y :: y in r.rhs ==> y in s;
      }
    }
    if InLeast(rules, x) {
      var just := set y | y in rules && InLeast(rules, y) && Justified(rules, y);
      assert Closed(rules, just) by {
        forall lhs, r | lhs in rules && r in rules[lhs] && (forall y :: y in r.rhs ==> y in just)
          ensures lhs in just
        {
          forall s | Closed(rules, s) ensures lhs in s {
            forall y | y in r.rhs ensures y in s { assert InLeast(rules, y); }
          }
          assert r in rules[lhs] && forall y :: y in r.rhs ==> InLeast(rules, y);
        }
      }
    }
  }
}
