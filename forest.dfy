/**
 * Reading the parse back out of the Earley sets: the links `add` records,
 * `predecessor` and `causal` over them, the ambiguity rule (`ambiguity` and
 * `resolve`), and the recursive construction of the value of the parse
 * (`buildTree`, `deriveEpsilon`). All of these only read the parser, so
 * they are functions of a snapshot of its tables.
 */
module Forest {
  import opened Wrappers
  import opened Ordering
  import opened Grammar
  import opened States
  import opened Values

  /** An Earley item `(state, parent)`. */
  datatype EItem = EItem(state: nat, parent: nat)

  /** `(item, i)`: an item in Earley set `i`, the key of `self.links`. */
  datatype Ptr = Ptr(item: EItem, i: nat)

  /** `why = (item, i, rule)`: the completed item that caused a transition. */
  datatype Cause = Cause(item: EItem, i: nat, rule: Rule)

  /** One entry of `self.links[(item, i)]`: the predecessor pointer and the cause. */
  datatype Link = Link(pred: Ptr, cause: Option<Cause>)

  type Links = map<Ptr, seq<Link>>

  /**
   * What the tree builder reads of the parser: the states, the links, the
   * epsilon-free grammar with its map back to user rules, the actions and
   * names of the user rules, and which `resolve` is in force (the matcher's
   * picks the last name, the others the first).
   */
  datatype Forest = Forest(states: seq<State>, links: Links, newrules: NewRules, new2old: map<Rule, Rule>,
                           rule2func: map<Rule, Handler>, rule2name: map<Rule, string>, longest: bool)

  // ---------------------------------------------------------------------
  // predecessor and causal
  // ---------------------------------------------------------------------

  /** The predecessor of the first link whose cause is `cause`; `assert 0` when none is. */
  function FirstPred(ls: seq<Link>, cause: Option<Cause>): (r: Result<Ptr, ParseError>)
    ensures r.Ok? <==> exists j :: 0 <= j < |ls| && ls[j].cause == cause
    ensures r.Ok? ==> exists j :: 0 <= j < |ls| && ls[j].cause == cause && r.value == ls[j].pred &&
                                  forall m :: 0 <= m < j ==> ls[m].cause != cause
  {
    if ls == [] then Err(Crash("AssertionError"))
    else if ls[0].cause == cause then Ok(ls[0].pred)
    else
      var r := FirstPred(ls[1..], cause);
      assert forall j :: 1 <= j < |ls| ==> ls[j] == ls[1..][j - 1];
      if r.Ok? then
        assert exists j :: 0 <= j < |ls| - 1 && ls[1..][j].cause == cause && r.value == ls[1..][j].pred &&
                           forall m :: 0 <= m < j ==> ls[1..][m].cause != cause;
        var j :| 0 <= j < |ls| - 1 && ls[1..][j].cause == cause && r.value == ls[1..][j].pred &&
                 forall m :: 0 <= m < j ==> ls[1..][m].cause != cause;
        assert ls[j + 1].cause == cause && r.value == ls[j + 1].pred;
        assert forall m :: 0 <= m < j + 1 ==> ls[m].cause != cause by {
          forall m | 0 <= m < j + 1 ensures ls[m].cause != cause {
            if m > 0 { assert ls[m] == ls[1..][m - 1]; }
          }
        }
        r
      else
        r
  }

  /** `predecessor(key, causal)`: a missing key raises `KeyError`; `FirstPred` states the rest. */
  function Predecessor(f: Forest, key: Ptr, cause: Option<Cause>): (r: Result<Ptr, ParseError>)
    ensures key !in f.links ==> r.Err?
    ensures key in f.links ==> r == FirstPred(f.links[key], cause)
  {
    if key !in f.links then Err(Crash("KeyError")) else FirstPred(f.links[key], cause)
  }

  /** The cause of the last link whose cause's rule is `rule` (what `rule2cause[rule]` holds). */
  function LastCause(ls: seq<Link>, rule: Rule): (c: Cause)
    requires forall j :: 0 <= j < |ls| ==> ls[j].cause.Some?
    requires exists j :: 0 <= j < |ls| && ls[j].cause.value.rule == rule
    ensures exists j :: 0 <= j < |ls| && ls[j].cause == Some(c) && c.rule == rule &&
                        forall m :: j < m < |ls| ==> ls[m].cause.value.rule != rule
  {
    var last := ls[|ls| - 1].cause.value;
    if last.rule == rule then last
    else
      var init := ls[..|ls| - 1];
      assert forall j :: 0 <= j < |init| ==> init[j] == ls[j];
      var j :| 0 <= j < |ls| && ls[j].cause.value.rule == rule;
      assert j < |init|;
      LastCause(init, rule)
  }

  // ---------------------------------------------------------------------
  // ambiguity and resolve
  // ---------------------------------------------------------------------

  /** `rule2name[new2old[rule]]`, when both lookups succeed. */
  function NameOf(f: Forest, r: Rule): Option<string> {
    if r in f.new2old && f.new2old[r] in f.rule2name then Some(f.rule2name[f.new2old[r]]) else None
  }

  predicate Named(f: Forest, rules: seq<Rule>) {
    forall r :: r in rules ==> NameOf(f, r).Some?
  }

  /** The sort key `(len(rhs), name)` of a rule. */
  function Key(f: Forest, r: Rule): (nat, string)
    requires NameOf(f, r).Some?
  {
    (|r.rhs|, NameOf(f, r).value)
  }

  /** The sort keys of `rules`, in order; `AmbiguityChoice` and `AmbiguityOrdering` state what sorting them picks. */
  function Keys(f: Forest, rules: seq<Rule>): (ks: seq<(nat, string)>)
    requires Named(f, rules)
    ensures |ks| == |rules|
    ensures forall j :: 0 <= j < |rules| ==> ks[j] == Key(f, rules[j])
  {
    seq(|rules|, j requires 0 <= j < |rules| => Key(f, rules[j]))
  }

  /** Python's order on `(int, str)` tuples. */
  predicate PairLess(a: (nat, string), b: (nat, string)) {
    a.0 < b.0 || (a.0 == b.0 && StrLess(a.1, b.1))
  }

  lemma PairLessIsStrictTotal()
    ensures StrictTotal(PairLess)
  {
    StrLessIsStrictTotal();
  }

  /** The index `name2index[name]` ends up holding: the last rule of that name. */
  function LastIndex(f: Forest, rules: seq<Rule>, name: string): (r: nat)
    requires Named(f, rules)
    requires exists j :: 0 <= j < |rules| && NameOf(f, rules[j]) == Some(name)
    ensures r < |rules| && NameOf(f, rules[r]) == Some(name)
    ensures forall m :: r < m < |rules| ==> NameOf(f, rules[m]) != Some(name)
  {
    if NameOf(f, rules[|rules| - 1]) == Some(name) then |rules| - 1
    else
      var init := rules[..|rules| - 1];
      assert forall j :: 0 <= j < |init| ==> init[j] == rules[j];
      var j :| 0 <= j < |rules| && NameOf(f, rules[j]) == Some(name);
      assert j < |init|;
      LastIndex(f, init, name)
  }

  /**
   * `resolve`: the parser's picks the first name of the sorted list (the
   * shortest right-hand side), the matcher's the last (the longest); an
   * empty list raises `IndexError`. `AmbiguityChoice` and
   * `AmbiguityOrdering` state what it picks from the sorted rules.
   */
  function Resolve(names: seq<string>, longest: bool): (r: Result<string, ParseError>)
    ensures r.Ok? <==> |names| > 0
    ensures r.Ok? && !longest ==> r.value == names[0]
    ensures r.Ok? && longest ==> r.value == names[|names| - 1]
  {
    if |names| == 0 then Err(Crash("IndexError"))
    else if longest then Ok(names[|names| - 1])
    else Ok(names[0])
  }

  /** The key `resolve` picks from the sorted keys. */
  function Picked(ks: seq<(nat, string)>, longest: bool): (nat, string)
    requires |ks| > 0
  {
    if longest then ks[|ks| - 1] else ks[0]
  }

  /** `ambiguity(rules)`: sort by `(len(rhs), name)`, resolve, map the name back. */
  function Ambiguity(f: Forest, rules: seq<Rule>): (r: Result<Rule, ParseError>)
    ensures r.Ok? <==> Named(f, rules) && |rules| > 0
    ensures r.Ok? ==> r.value in rules
  {
    if !Named(f, rules) then Err(Crash("KeyError"))
    else if |rules| == 0 then Err(Crash("IndexError"))
    else
      var sorted := Sort(Keys(f, rules), PairLess);
      var names := seq(|sorted|, j requires 0 <= j < |sorted| => sorted[j].1);
      var name := Picked(sorted, f.longest).1;
      assert Resolve(names, f.longest) == Ok(name);
      PickedIsAKey(Keys(f, rules), sorted, f.longest);
      var i := LastIndex(f, rules, name);
      Ok(rules[i])
  }

  lemma PickedIsAKey(ks: seq<(nat, string)>, sorted: seq<(nat, string)>, longest: bool)
    requires |ks| > 0 && multiset(sorted) == multiset(ks)
    ensures |sorted| > 0
    ensures exists j :: 0 <= j < |ks| && ks[j] == Picked(sorted, longest)
  {
    assert |sorted| == |multiset(sorted)| == |multiset(ks)| == |ks|;
    var p := Picked(sorted, longest);
    assert p in multiset(sorted);
    assert p in ks;
  }

  /**
   * Candidate `c` is `rules[i]`, the last of the candidates named like
   * `rules[w]`, whose key is least (default) or greatest (matcher).
   */
  ghost predicate Chosen(f: Forest, rules: seq<Rule>, c: Rule, i: int, w: int)
    requires Named(f, rules)
  {
    && 0 <= i < |rules| && 0 <= w < |rules| && c == rules[i]
    && NameOf(f, rules[w]) == NameOf(f, c)
    && (forall m :: i < m < |rules| ==> NameOf(f, rules[m]) != NameOf(f, c))
    && (forall m :: 0 <= m < |rules| ==>
          if f.longest then !PairLess(Key(f, rules[w]), Key(f, rules[m]))
          else !PairLess(Key(f, rules[m]), Key(f, rules[w])))
  }

  /**
   * What `ambiguity` chooses: the name of a least (default) or greatest
   * (matcher) key among the candidates, and, of the candidates carrying
   * that name, the last one.
   */
  lemma AmbiguityChoice(f: Forest, rules: seq<Rule>)
    requires Named(f, rules) && |rules| > 0
    ensures Ambiguity(f, rules).Ok?
    ensures exists i, w :: Chosen(f, rules, Ambiguity(f, rules).value, i, w)
  {
    var ks := Keys(f, rules);
    var sorted := Sort(ks, PairLess);
    PairLessIsStrictTotal();
    SortSorted(ks, PairLess);
    PickedIsAKey(ks, sorted, f.longest);
    var p := Picked(sorted, f.longest);
    var w :| 0 <= w < |ks| && ks[w] == p;
    var i := LastIndex(f, rules, p.1);
    assert Ambiguity(f, rules) == Ok(rules[i]);
    forall m | 0 <= m < |rules|
      ensures if f.longest then !PairLess(Key(f, rules[w]), Key(f, rules[m]))
              else !PairLess(Key(f, rules[m]), Key(f, rules[w]))
    {
      assert ks[m] in multiset(ks);
      assert ks[m] in sorted;
      if f.longest {
        SortedLastIsGreatest(sorted, PairLess, ks[m]);
      } else {
        SortedFirstIsLeast(sorted, PairLess, ks[m]);
      }
    }
    assert Chosen(f, rules, rules[i], i, w);
  }

  /**
   * With distinct names (each candidate from its own method), the default
   * resolution picks a candidate with the shortest right-hand side, ties
   * going to the least name, and the matcher's picks one with the longest,
   * ties going to the greatest name.
   */
  lemma AmbiguityOrdering(f: Forest, rules: seq<Rule>)
    requires Named(f, rules) && |rules| > 0
    requires forall a, b :: 0 <= a < b < |rules| ==> NameOf(f, rules[a]) != NameOf(f, rules[b])
    ensures Ambiguity(f, rules).Ok?
    ensures var c := Ambiguity(f, rules).value;
      forall m :: 0 <= m < |rules| ==>
        if f.longest then !PairLess(Key(f, c), Key(f, rules[m]))
        else !PairLess(Key(f, rules[m]), Key(f, c))
  {
    AmbiguityChoice(f, rules);
    DistinctWinner(f, rules, Ambiguity(f, rules).value);
  }

  /** With distinct names, the last candidate of the winning name is the winner itself. */
  lemma DistinctWinner(f: Forest, rules: seq<Rule>, c: Rule)
    requires Named(f, rules)
    requires forall a, b :: 0 <= a < b < |rules| ==> NameOf(f, rules[a]) != NameOf(f, rules[b])
    requires exists i, w :: Chosen(f, rules, c, i, w)
    ensures forall m :: 0 <= m < |rules| ==>
      if f.longest then !PairLess(Key(f, c), Key(f, rules[m]))
      else !PairLess(Key(f, rules[m]), Key(f, c))
  {
    var i, w :| Chosen(f, rules, c, i, w);
    if w < i {
      assert false;
    }
  }

  /**
   * `causal(key)`: with one link, its cause (possibly `None`); with more,
   * the cause recorded last for the rule `ambiguity` picks among the
   * causes' rules (a `None` cause among several raises `TypeError`).
   */
  function Causal(f: Forest, key: Ptr): (r: Result<Option<Cause>, ParseError>)
    ensures r.Ok? ==> key in f.links
    ensures key in f.links && |f.links[key]| == 1 ==> r == Ok(f.links[key][0].cause)
    ensures r.Ok? && |f.links[key]| != 1 ==>
      var ls := f.links[key];
      && r.value.Some?
      && (forall m :: 0 <= m < |ls| ==> ls[m].cause.Some?)
      && exists j :: 0 <= j < |ls| && ls[j].cause == r.value &&
           forall m :: j < m < |ls| ==> ls[m].cause.value.rule != r.value.value.rule
    ensures r.Ok? && |f.links[key]| != 1 ==>
      && (forall m :: 0 <= m < |f.links[key]| ==> f.links[key][m].cause.Some?)
      && Ambiguity(f, CauseRules(f.links[key])) == Ok(r.value.value.rule)
      && exists i, w :: Chosen(f, CauseRules(f.links[key]), r.value.value.rule, i, w)
    ensures key in f.links && |f.links[key]| > 1 && (exists j :: 0 <= j < |f.links[key]| && f.links[key][j].cause.None?) ==>
      r == Err(Crash("TypeError"))
  {
    if key !in f.links then Err(Crash("KeyError"))
    else
      var ls := f.links[key];
      if |ls| == 1 then Ok(ls[0].cause)
      else if exists j :: 0 <= j < |ls| && ls[j].cause.None? then Err(Crash("TypeError"))
      else
        var choices := CauseRules(ls);
        match Ambiguity(f, choices)
        case Err(e) => Err(e)
        case Ok(rule) =>
          assert rule in choices;
          AmbiguityChoice(f, choices);
          Ok(Some(LastCause(ls, rule)))
  }

  /** The rules of the causes of several links, the candidates `causal` hands to `ambiguity`. */
  function CauseRules(ls: seq<Link>): (rs: seq<Rule>)
    requires forall m :: 0 <= m < |ls| ==> ls[m].cause.Some?
    ensures |rs| == |ls| && forall m :: 0 <= m < |ls| ==> rs[m] == ls[m].cause.value.rule
  {
    seq(|ls|, j requires 0 <= j < |ls| => ls[j].cause.value.rule)
  }

  // ---------------------------------------------------------------------
  // buildTree and deriveEpsilon
  // ---------------------------------------------------------------------

  /** The completed rules of a state whose lhs is `nt`, in order. */
  function Choices(complete: seq<Rule>, nt: Symbol): (cs: seq<Rule>)
    ensures forall r :: r in cs <==> r in complete && r.lhs == nt
  {
    if complete == [] then []
    else (if complete[0].lhs == nt then [complete[0]] else []) + Choices(complete[1..], nt)
  }

  /** `self.rule2func[self.new2old[rule]](attr)`. */
  function Action(f: Forest, rule: Rule, attr: seq<Value>): Result<Value, ParseError> {
    if rule in f.new2old && f.new2old[rule] in f.rule2func then Apply(f.rule2func[f.new2old[rule]], attr)
    else Err(Crash("KeyError"))
  }

  /** `tokens[k - 1]` with Python's negative indexing. */
  function TokenBefore(tokens: seq<Token>, k: nat): Option<Token> {
    if k == 0 then (if |tokens| > 0 then Some(tokens[|tokens| - 1]) else None)
    else if k - 1 < |tokens| then Some(tokens[k - 1])
    else None
  }

  /** The rule `deriveEpsilon` and `buildTree` use among several candidates. */
  function Choose(f: Forest, rs: seq<Rule>): (r: Result<Rule, ParseError>)
    ensures r.Ok? ==> r.value in rs
    ensures |rs| == 1 ==> r == Ok(rs[0])
    ensures rs == [] ==> r == Err(Crash("IndexError"))
    ensures |rs| > 1 ==> r == Ambiguity(f, rs) && (r.Ok? <==> Named(f, rs))
    ensures |rs| > 1 && r.Ok? ==> exists i, w :: Chosen(f, rs, r.value, i, w)
  {
    if |rs| > 1 then
      if Named(f, rs) then AmbiguityChoice(f, rs); Ambiguity(f, rs) else Ambiguity(f, rs)
    else if |rs| == 1 then Ok(rs[0])
    else Err(Crash("IndexError"))
  }

  /**
   * `deriveEpsilon(nt)`: the value of the empty derivation of a nullable
   * symbol, built from the values of its (chosen) alternative's symbols.
   * `fuel` bounds the recursion.
   */
  function DeriveEpsilon(f: Forest, nt: Symbol, fuel: nat): (r: Result<Value, ParseError>)
    ensures r.Ok? ==>
      && nt in f.newrules
      && exists rule, attr :: rule in f.newrules[nt] && |attr| == |rule.rhs| && r == Action(f, rule, attr)
    decreases fuel, 1
  {
    if fuel == 0 then Err(OutOfFuel)
    else if nt !in f.newrules then Err(Crash("KeyError"))
    else
      match Choose(f, f.newrules[nt])
      case Err(e) => Err(e)
      case Ok(rule) =>
        match DeriveAll(f, rule.rhs, |rule.rhs|, [], fuel - 1)
        case Err(e) => Err(e)
        case Ok(attr) => Action(f, rule, attr)
  }

  /** The loop `for i in range(len(rhs) - 1, -1, -1)` of `deriveEpsilon`. */
  function DeriveAll(f: Forest, rhs: seq<Symbol>, i: nat, acc: seq<Value>, fuel: nat): (r: Result<seq<Value>, ParseError>)
    requires i <= |rhs|
    ensures r.Ok? ==> |r.value| == i + |acc| && r.value[i..] == acc
    decreases fuel, 2, i
  {
    if i == 0 then Ok(acc)
    else
      match DeriveEpsilon(f, rhs[i - 1], fuel)
      case Err(e) => Err(e)
      case Ok(v) =>
        var r := DeriveAll(f, rhs, i - 1, [v] + acc, fuel);
        if r.Ok? then
          assert r.value[i..] == r.value[i - 1..][1..];
          r
        else r
  }

  /**
   * `buildTree(nt, item, tokens, k)`: the value of the derivation of `nt`
   * that ends in `item` at set `k`, through the rule chosen among the
   * state's completed rules for `nt`; the handler gets one attribute per
   * right-hand-side symbol.
   */
  function BuildTree(f: Forest, nt: Symbol, item: EItem, tokens: seq<Token>, k: nat, fuel: nat): (r: Result<Value, ParseError>)
    ensures r.Ok? ==>
      && item.state < |f.states|
      && exists rule, attr :: rule in f.states[item.state].complete && rule.lhs == nt && |attr| == |rule.rhs| &&
                              r == Action(f, rule, attr)
    decreases fuel, 1
  {
    if fuel == 0 then Err(OutOfFuel)
    else if item.state >= |f.states| then Err(Crash("KeyError"))
    else
      match Choose(f, Choices(f.states[item.state].complete, nt))
      case Err(e) => Err(e)
      case Ok(rule) =>
        match Walk(f, rule.rhs, |rule.rhs|, item, k, tokens, [], fuel - 1)
        case Err(e) => Err(e)
        case Ok(attr) => Action(f, rule, attr)
  }

  /**
   * The loop of `buildTree`, from the last symbol to the first: a terminal
   * takes the token before set `k` and steps to the predecessor; a tagged
   * symbol takes its epsilon value; a nonterminal builds the tree of its
   * cause and steps to the predecessor through that cause.
   */
  function Walk(f: Forest, rhs: seq<Symbol>, i: nat, item: EItem, k: nat, tokens: seq<Token>,
                acc: seq<Value>, fuel: nat): (r: Result<seq<Value>, ParseError>)
    requires i <= |rhs|
    ensures r.Ok? ==> |r.value| == i + |acc| && r.value[i..] == acc
    decreases fuel, 2, i
  {
    if i == 0 then Ok(acc)
    else
      var sym := rhs[i - 1];
      var step: Result<(Value, EItem, nat), ParseError> :=
        if sym !in f.newrules then
          if sym == BOF then Ok((Nothing, item, k))
          else if TokenBefore(tokens, k).None? then Err(Crash("IndexError"))
          else
            match Predecessor(f, Ptr(item, k), None)
            case Err(e) => Err(e)
            case Ok(p) => Ok((Tok(TokenBefore(tokens, k).value), p.item, p.i))
        else if IsNullable(sym) then
          match DeriveEpsilon(f, sym, fuel)
          case Err(e) => Err(e)
          case Ok(v) => Ok((v, item, k))
        else
          match Causal(f, Ptr(item, k))
          case Err(e) => Err(e)
          case Ok(why) =>
            if why.None? then Err(Crash("TypeError"))
            else
              match BuildTree(f, sym, why.value.item, tokens, why.value.i, fuel)
              case Err(e) => Err(e)
              case Ok(v) =>
                match Predecessor(f, Ptr(item, k), why)
                case Err(e) => Err(e)
                case Ok(p) => Ok((v, p.item, p.i));
      match step
      case Err(e) => Err(e)
      case Ok(s) =>
        var r := Walk(f, rhs, i - 1, s.1, s.2, tokens, [s.0] + acc, fuel);
        if r.Ok? then
          assert r.value[i..] == r.value[i - 1..][1..];
          r
        else r
  }

  /**
   * The tables `GenericASTBuilder` leaves: every user rule but the start
   * rule is bound to `buildASTNode` for its own lhs, and every rewritten
   * rule has its user rule's lhs, tagged or not.
   */
  ghost predicate BuilderTables(f: Forest) {
    && (forall u :: u in f.rule2func && u.lhs != START ==> f.rule2func[u] == BuildNode(u.lhs))
    && (forall r :: r in f.new2old ==> r.lhs == f.new2old[r].lhs || r.lhs == Tagged(f.new2old[r].lhs))
  }

  /**
   * Under the AST builder, the value `buildTree` gives for a nonterminal
   * other than `START` is a node of that type with one child per symbol
   * of the completed rule it was built through.
   */
  lemma BuilderTree(f: Forest, nt: Symbol, item: EItem, tokens: seq<Token>, k: nat, fuel: nat)
    requires BuilderTables(f) && nt != START && !IsNullable(nt)
    requires BuildTree(f, nt, item, tokens, k, fuel).Ok?
    ensures var v := BuildTree(f, nt, item, tokens, k, fuel).value;
      && v.Node? && v.kind == nt
      && exists rule :: rule in f.states[item.state].complete && rule.lhs == nt && |v.kids| == |rule.rhs|
  {
    var v := BuildTree(f, nt, item, tokens, k, fuel).value;
    var rule, attr :| rule in f.states[item.state].complete && rule.lhs == nt && |attr| == |rule.rhs| &&
                      Ok(v) == Action(f, rule, attr);
    var u := f.new2old[rule];
    assert u.lhs == nt;
    assert v == Node(nt, attr);
  }
}
