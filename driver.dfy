/**
 * The top level of `GenericParser.parse` on values: the rebuild of the
 * tables when the rules changed (`computeNull`, `makeNewRules`,
 * `makeState0`, `makeState(0, BOF)`), `finalState`, and the acceptance
 * test on the Earley sets.
 */
module Driver {
  import opened Wrappers
  import opened Grammar
  import opened Nullable
  import opened Rewrite
  import opened States
  import opened Values
  import opened Forest
  import opened Automata
  import opened Earley

  /** Some rule of `START` has a non-empty right-hand side. */
  ghost predicate StartRule(rules: Rules) {
    START in rules && exists r :: r in rules[START] && r.rhs != []
  }

  /**
   * The tables `parse` derives from the rules: `nullable` marks exactly the
   * nonterminals deriving the empty string, and `newrules`/`new2old` hold
   * exactly the epsilon-free copies of the user rules.
   */
  ghost predicate Derived(rules: Rules, nullable: map<Symbol, bool>, newrules: NewRules, new2old: map<Rule, Rule>) {
    && nullable.Keys == rules.Keys
    && (forall x :: x in nullable ==> (nullable[x] <==> InLeast(rules, x)))
    && OutputOk(rules, nullable, newrules, new2old)
    && (forall o, r :: Original(rules, o) && VariantOf(rules, nullable, o, r) ==> Produced(newrules, r))
  }

  /**
   * `START` has rules after the rewrite exactly when one of its user rules
   * has a non-empty right-hand side: a rule whose right-hand side is empty
   * only yields the tagged copy `\e_START ::=`. Otherwise `makeState0`
   * raises `KeyError`.
   */
  lemma StartProduced(rules: Rules, nullable: map<Symbol, bool>, newrules: NewRules, new2old: map<Rule, Rule>)
    requires WellFormed(rules) && Derived(rules, nullable, newrules, new2old)
    ensures START in newrules <==> StartRule(rules)
  {
    if StartRule(rules) {
      var o :| o in rules[START] && o.rhs != [];
      assert !AllSubstituted(o, o) by { assert o.rhs[0] == o.rhs[0]; }
      assert VariantOf(rules, nullable, o, o);
    }
    if START in newrules {
      var r := newrules[START][0];
      assert r in newrules[START];
      var o := new2old[r];
      assert Original(rules, o) && VariantOf(rules, nullable, o, r);
      TaggedIsNotStart(o.lhs);
      assert !AllSubstituted(o, r);
      assert o.lhs == START && o in rules[START];
      assert o.rhs != [];
    }
  }

  /** A tagged symbol starts with a backslash, so it is never `START`. */
  lemma TaggedIsNotStart(x: Symbol)
    ensures Tagged(x) != START
  {
    assert Tagged(x)[0] == NULLABLE[0];
  }

  /**
   * The automaton right after the rebuild: state 0 holds the rules of
   * `START` with the dot at 0 (and no completed rules or terminals), and
   * state 1 is the kernel reached from it over `|-`.
   */
  ghost predicate Started(newrules: NewRules, m: Machine)
    requires START in newrules && |m.states| >= 2
  {
    && m.states[0].stateno == 0 && m.states[0].complete == [] && m.states[0].t == []
    && |m.states[0].items| == |newrules[START]|
    && (forall j :: 0 <= j < |newrules[START]| ==> m.states[0].items[j] == Item(newrules[START][j], 0))
    && m.states[1].items == KernelOf(m.states[0].items, BOF)
    && KernelKey(KernelOf(m.states[0].items, BOF)) in m.cores
    && m.cores[KernelKey(KernelOf(m.states[0].items, BOF))] == 1
  }

  /**
   * The block of `parse` run when the rules changed: `computeNull()`, then
   * `makeNewRules()` into empty tables, then `states = {0: makeState0()}`
   * and `makeState(0, BOF)` on empty edges and cores. `makeState0` raises
   * `KeyError` exactly when no rule of `START` has a right-hand side.
   */
  method RebuildTables(rules: Rules, order: seq<Symbol>)
    returns (nullable: map<Symbol, bool>, newrules: NewRules, new2old: map<Rule, Rule>, r: Result<Machine, ParseError>)
    requires WellFormed(rules) && KeyOrder(rules, order)
    ensures Derived(rules, nullable, newrules, new2old)
    ensures r.Err? <==> !StartRule(rules)
    ensures r.Err? ==> r.error == Crash("KeyError")
    ensures r.Ok? ==> START in newrules && |r.value.states| >= 2 && Good(newrules, r.value) && Started(newrules, r.value)
  {
    nullable := ComputeNullable(rules, order);
    newrules, new2old := MakeNewRules(rules, order, nullable);
    StartProduced(rules, nullable, newrules, new2old);
    var s0 := MakeState0(newrules);
    if s0.Err? {
      return nullable, newrules, new2old, Err(s0.error);
    }
    Initial(newrules, s0.value);
    var m0 := Machine([s0.value], map[], map[]);
    var m, k := MakeState(newrules, m0, 0, BOF);
    assert m.states[0] == m0.states[0];
    r := Ok(m);
  }

  /** What `goto(state, sym)` returned: `None` without an edge, otherwise the stored target. */
  ghost predicate Went(m: Machine, m': Machine, state: nat, sym: Label, rv: Option<nat>) {
    && ((state, sym) !in m.edges ==> m' == m && rv == None)
    && ((state, sym) in m.edges ==>
          rv.Some? && rv.value < |m'.states| && (state, sym) in m'.edges && m'.edges[(state, sym)] == rv)
  }

  /**
   * `finalState(tokens)`: state 1 when `START` has exactly two rules and
   * there are no tokens; otherwise `goto(1, s)` with `s` the second symbol
   * of the first rule of `START` (`KeyError` without rules of `START`,
   * `IndexError` when that rule is shorter).
   */
  method FinalState(newrules: NewRules, rules: Rules, m: Machine, tokens: seq<Token>)
    returns (m': Machine, r: Result<Option<nat>, ParseError>)
    requires Good(newrules, m) && WellFormed(rules)
    ensures Good(newrules, m') && Extends(m, m')
    ensures START !in newrules ==> r == Err(Crash("KeyError")) && m' == m
    ensures START in newrules && |newrules[START]| == 2 && tokens == [] ==> r == Ok(Some(1)) && m' == m
    ensures START in newrules && !(|newrules[START]| == 2 && tokens == []) ==>
      && (START !in rules ==> r == Err(Crash("KeyError")) && m' == m)
      && (START in rules && |rules[START][0].rhs| < 2 ==> r == Err(Crash("IndexError")) && m' == m)
      && (START in rules && |rules[START][0].rhs| >= 2 ==>
            r.Ok? && Went(m, m', 1, On(rules[START][0].rhs[1]), r.value))
  {
    if START !in newrules {
      return m, Err(Crash("KeyError"));
    }
    if |newrules[START]| == 2 && tokens == [] {
      return m, Ok(Some(1));
    }
    if START !in rules {
      return m, Err(Crash("KeyError"));
    }
    var rhs := rules[START][0].rhs;
    if |rhs| < 2 {
      return m, Err(Crash("IndexError"));
    }
    var rv;
    m', rv := Goto(newrules, m, 1, On(rhs[1]));
    r := Ok(rv);
  }

  /**
   * The token `parse` hands to `error`: `tokens[i - 1]` for the last value
   * `i` of its loop variable (so `-1`, the last token, when that is 0), or
   * `None` without tokens. `Accept` and `BrokeRejects` state which token
   * that is when the loop breaks.
   */
  function ErrorToken(tokens: seq<Token>, last: nat): (t: Option<Token>)
    requires tokens == [] || last < |tokens|
    ensures t.None? <==> tokens == []
    ensures t.Some? ==> t.value == tokens[if last == 0 then |tokens| - 1 else last - 1]
  {
    if tokens == [] then None
    else if last == 0 then Some(tokens[|tokens| - 1])
    else Some(tokens[last - 1])
  }

  /** The final item `(finalState(tokens), 0)` is in the last but one set. */
  predicate Accepted(sets: seq<seq<EItem>>, final: Option<nat>)
    requires |sets| >= 2
  {
    final.Some? && EItem(final.value, 0) in sets[|sets| - 2]
  }

  /**
   * What the loop of `parse` and `finalState` left behind: the Earley sets,
   * the last value of the loop variable, whether the loop broke, the final
   * state, and the automaton before the loop and after it.
   */
  datatype Sweep = Sweep(sets: seq<seq<EItem>>, last: nat, broke: bool, final: Option<nat>, start: Machine, loop: Machine)

  /**
   * `finalState(tokens)` returned `final` and took the automaton from `m`
   * to `m'`: state 1 for two rules of `START` and no tokens, otherwise
   * `goto(1, s)` with `s` the second symbol of the first rule of `START`.
   */
  ghost predicate Finalised(newrules: NewRules, rules: Rules, m: Machine, m': Machine, tokens: seq<Token>,
                            final: Option<nat>) {
    && START in newrules
    && (|newrules[START]| == 2 && tokens == [] ==> final == Some(1) && m' == m)
    && (!(|newrules[START]| == 2 && tokens == []) ==>
          && START in rules && rules[START] != [] && |rules[START][0].rhs| >= 2
          && Went(m, m', 1, On(rules[START][0].rhs[1]), final))
  }

  /**
   * What `parse` answers once its loop and `finalState` are through: the
   * tree of `START` from the final item when that item is in the last but
   * one set, and otherwise the syntax error `error` raises, near
   * `tokens[i - 1]` for the last value `i` of the loop variable.
   */
  ghost predicate Answered(f: Forest, tokens: seq<Token>, fuel: nat, sets: seq<seq<EItem>>, final: Option<nat>,
                           last: nat, r: Result<Value, ParseError>)
    requires |sets| >= 2 && (tokens == [] || last < |tokens|)
  {
    && (Accepted(sets, final) ==> r == BuildTree(f, START, EItem(final.value, 0), tokens, |sets| - 2, fuel))
    && (!Accepted(sets, final) ==> r == Err(SyntaxError(ErrorToken(tokens, last))))
  }

  /**
   * The whole of `parse` after the rebuild, over the tables `f`: the
   * Earley sets are the ones the loop built from `run.start`, the final
   * state is what `finalState` returned on the automaton the loop left,
   * and the answer is the tree or the syntax error those give.
   */
  ghost predicate Concluded(newrules: NewRules, rules: Rules, m': Machine, links: Links, tokens: seq<Token>,
                            typestring: Token -> Option<Symbol>, fuel: nat, f: Forest, run: Sweep,
                            r: Result<Value, ParseError>) {
    && Recognised(run.start, run.loop, links, run.sets, run.last, run.broke, tokens, typestring)
    && Extends(run.loop, m')
    && Finalised(newrules, rules, run.loop, m', tokens, run.final)
    && Answered(f, tokens, fuel, run.sets, run.final, run.last, r)
  }

  /** A `Recognised` run leaves `last` where `tokens[last - 1]` can be read. */
  lemma RecognisedLast(m: Machine, m': Machine, links: Links, sets: seq<seq<EItem>>, last: nat, broke: bool,
                       tokens: seq<Token>, typestring: Token -> Option<Symbol>)
    requires Recognised(m, m', links, sets, last, broke, tokens, typestring)
    ensures tokens == [] || last < |tokens|
  {
  }

  /**
   * When the loop of `parse` breaks, the last but one set is the empty set
   * that stopped it, so the final item is never found: the parse ends in
   * the syntax error near `tokens[last - 1]`, the token whose scan left
   * that set empty after a non-empty one.
   */
  lemma {:induction false} BrokeRejects(newrules: NewRules, rules: Rules, m': Machine, links: Links, tokens: seq<Token>,
                                        typestring: Token -> Option<Symbol>, fuel: nat, f: Forest, run: Sweep,
                                        r: Result<Value, ParseError>)
    requires Concluded(newrules, rules, m', links, tokens, typestring, fuel, f, run, r) && run.broke
    ensures 0 < run.last < |tokens| && run.sets[run.last] == [] && run.sets[run.last - 1] != []
    ensures r == Err(SyntaxError(Some(tokens[run.last - 1])))
  {
    assert run.sets[|run.sets| - 2] == [];
    assert !Accepted(run.sets, run.final);
  }

  /**
   * The exceptions the loop of `parse` and `finalState` can end in, each
   * where it arises: the fuel bound; `KeyError` from `gotoST` on an item
   * of the first set whose state was never built (`stale`), or from
   * `finalState` without rules of `START`; `IndexError` when the first
   * rule of `START` has no second symbol.
   */
  ghost predicate Raised(newrules: NewRules, rules: Rules, stale: bool, e: ParseError) {
    || e == OutOfFuel
    || (e == Crash("KeyError") && (stale || START !in newrules || START !in rules))
    || (e == Crash("IndexError") && START in rules && rules[START] != [] && |rules[START][0].rhs| < 2)
  }

  /**
   * `parse` after its rebuild: the loop over the tokens, `finalState`, the
   * acceptance test and `buildTree(START, finalitem, tokens, len(sets) - 2)`
   * over the tables `f` with the automaton and links the loop left.
   * `run` is present when the loop and `finalState` raised nothing.
   */
  method Accept(newrules: NewRules, rules: Rules, m: Machine, tokens: seq<Token>, typestring: Token -> Option<Symbol>,
                fuel: nat, f: Forest)
    returns (m': Machine, links: Links, ghost run: Option<Sweep>, r: Result<Value, ParseError>)
    requires Good(newrules, m) && WellFormed(rules)
    ensures Good(newrules, m') && Extends(m, m')
    ensures run.Some? ==>
      run.value.start == m && Concluded(newrules, rules, m', links, tokens, typestring, fuel,
                                        f.(states := m'.states, links := links), run.value, r)
    ensures run.None? ==> r.Err? && Raised(newrules, rules, StaleItems(|m.states|) != [], r.error)
  {
    var m1, sets, last, broke, outcome;
    m1, links, sets, last, broke, outcome := Recognise(newrules, m, tokens, typestring, fuel);
    run := None;
    if outcome.Failed? {
      return m1, links, run, Err(outcome.error);
    }
    var fin;
    m', fin := FinalState(newrules, rules, m1, tokens);
    ExtendsTrans(m, m1, m');
    if fin.Err? {
      return m', links, run, Err(fin.error);
    }
    run := Some(Sweep(sets, last, broke, fin.value, m, m1));
    RecognisedLast(m, m1, links, sets, last, broke, tokens, typestring);
    if fin.value.None? || EItem(fin.value.value, 0) !in sets[|sets| - 2] {
      return m', links, run, Err(SyntaxError(ErrorToken(tokens, last)));
    }
    r := BuildTree(f.(states := m'.states, links := links), START, EItem(fin.value.value, 0), tokens, |sets| - 2, fuel);
  }

  /**
   * `parse` on a parser whose rebuild raised `KeyError`: `self.states`
   * was never set, so `gotoST` on the first set raises `AttributeError`;
   * with a type for the first token `gotoT` finds no edge instead, and
   * `finalState` raises `KeyError` on `newrules[START]`.
   * `Parser.GenericParser.Parse` states when it is the answer.
   */
  function Unbuilt(tokens: seq<Token>, typestring: Token -> Option<Symbol>): (e: ParseError)
    ensures e.Crash?
    ensures e == Crash("AttributeError") <==> ScanOf(TokenAt(tokens, 0), typestring).ByToken?
  {
    if ScanOf(TokenAt(tokens, 0), typestring).ByToken? then Crash("AttributeError") else Crash("KeyError")
  }
}
