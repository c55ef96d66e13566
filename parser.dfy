/**
 * `GenericParser` (and, through its `flavour`, the `preprocess` and
 * `resolve` hooks of `GenericASTBuilder` and `GenericASTMatcher`): the
 * grammar tables `addRule` fills, the lazily built automaton (`makeState`,
 * `goto`), the Earley sets of `parse` (`makeSet`, `add`) and the
 * acceptance test of `parse`.
 */
module Parser {
  import opened Wrappers
  import opened Ordering
  import opened Grammar
  import opened Nullable
  import opened Rewrite
  import opened States
  import opened Values
  import opened Forest
  import opened Automata
  import opened Earley
  import opened Driver
  import opened Trees

  /** Which class the parser is: the plain parser, the AST builder or the AST matcher. */
  datatype Flavour = Plain | Builder | Matcher

  /** What `addRule` is given as `func`: a bound `p_` method, or the lambda of `augment`. */
  datatype Func = Method(name: string) | Lambda

  /** A method found by `_namelist` on the parser: its name and docstring. */
  datatype Member = Member(name: string, doc: string)

  function FuncName(func: Func): string {
    match func
    case Method(name) => name
    case Lambda => "<lambda>"
  }

  /** `func.__name__[2:]`. */
  function NameSuffix(name: string): (r: string)
    ensures |r| == if |name| >= 2 then |name| - 2 else 0
    ensures |name| >= 2 ==> name == name[..2] + r
  {
    if |name| >= 2 then name[2..] else ""
  }

  /**
   * The rule as stored, with `preprocess` applied when asked: the matcher
   * reverses the right-hand side, the others keep the rule.
   */
  function Stored(flavour: Flavour, preprocess: bool, r: Rule): (s: Rule)
    ensures s.lhs == r.lhs && multiset(s.rhs) == multiset(r.rhs)
  {
    if preprocess && flavour == Matcher then
      ReverseMultiset(r.rhs);
      Rule(r.lhs, Reverse(r.rhs))
    else r
  }

  /** The matcher's `preprocess` stores the right-hand side back to front; nothing else changes a rule. */
  lemma StoredOrder(flavour: Flavour, preprocess: bool, r: Rule)
    ensures var s := Stored(flavour, preprocess, r);
      && (preprocess && flavour == Matcher ==>
            |s.rhs| == |r.rhs| && forall j :: 0 <= j < |r.rhs| ==> s.rhs[j] == r.rhs[|r.rhs| - 1 - j])
      && (!(preprocess && flavour == Matcher) ==> s == r)
  {
  }

  /**
   * The action `rule2func` records: `func` itself, or, after `preprocess`,
   * the builder's `buildASTNode` for the lhs or the matcher's `foundMatch`.
   */
  function HandlerFor(flavour: Flavour, preprocess: bool, func: Func, lhs: Symbol): Handler {
    if preprocess && flavour == Builder then BuildNode(lhs)
    else if preprocess && flavour == Matcher then FoundMatch(FuncName(func))
    else match func
      case Method(name) => User(name)
      case Lambda => TakeSecond
  }

  /** The rules one call of `addRule` adds, as stored. */
  function Declared(flavour: Flavour, preprocess: bool, doc: string): seq<Rule> {
    StoreAll(flavour, preprocess, ParseRules(Words(doc)))
  }

  lemma {:induction false} StoreAllAt(flavour: Flavour, preprocess: bool, ps: seq<Rule>)
    ensures forall j :: 0 <= j < |ps| ==> StoreAll(flavour, preprocess, ps)[j] == Stored(flavour, preprocess, ps[j])
  {
    if ps != [] {
      StoreAllAt(flavour, preprocess, ps[..|ps| - 1]);
    }
  }

  /** `Stored` applied to each rule, in order. */
  function StoreAll(flavour: Flavour, preprocess: bool, ps: seq<Rule>): (rs: seq<Rule>)
    ensures |rs| == |ps|
  {
    if ps == [] then [] else StoreAll(flavour, preprocess, ps[..|ps| - 1]) + [Stored(flavour, preprocess, ps[|ps| - 1])]
  }

  // ---------------------------------------------------------------------
  // The rule table: `rules[lhs]` lists the rules of `lhs` in the order they
  // were added; the dict's key order is the order lhs's first appeared.
  // ---------------------------------------------------------------------

  function AddOne(rules: Rules, r: Rule): Rules {
    rules[r.lhs := (if r.lhs in rules then rules[r.lhs] else []) + [r]]
  }

  function AddAll(rules: Rules, rs: seq<Rule>): Rules {
    if rs == [] then rules else AddOne(AddAll(rules, rs[..|rs| - 1]), rs[|rs| - 1])
  }

  function OrderAll(order: seq<Symbol>, rs: seq<Rule>): seq<Symbol> {
    if rs == [] then order
    else
      var o := OrderAll(order, rs[..|rs| - 1]);
      if rs[|rs| - 1].lhs in o then o else o + [rs[|rs| - 1].lhs]
  }

  /** The rules of `rs` whose lhs is `lhs`, in order. */
  function RulesOf(rs: seq<Rule>, lhs: Symbol): seq<Rule> {
    if rs == [] then []
    else RulesOf(rs[..|rs| - 1], lhs) + (if rs[|rs| - 1].lhs == lhs then [rs[|rs| - 1]] else [])
  }

  /** `rule2func[rule] = fn` for each added rule, in order. */
  function BindHandlers(m: map<Rule, Handler>, rs: seq<Rule>, flavour: Flavour, preprocess: bool, func: Func): map<Rule, Handler> {
    if rs == [] then m
    else
      var r := rs[|rs| - 1];
      BindHandlers(m, rs[..|rs| - 1], flavour, preprocess, func)[r := HandlerFor(flavour, preprocess, func, r.lhs)]
  }

  /** `rule2name[rule] = name` for each added rule. */
  function BindNames(m: map<Rule, string>, rs: seq<Rule>, name: string): map<Rule, string> {
    if rs == [] then m else BindNames(m, rs[..|rs| - 1], name)[rs[|rs| - 1] := name]
  }

  /** Each added rule is bound to its action and name; every other entry is kept. */
  lemma {:induction false} BindSpec(m: map<Rule, Handler>, n: map<Rule, string>, rs: seq<Rule>,
                                    flavour: Flavour, preprocess: bool, func: Func, name: string)
    ensures forall r :: r in BindHandlers(m, rs, flavour, preprocess, func) <==> r in m || r in rs
    ensures forall r :: r in BindNames(n, rs, name) <==> r in n || r in rs
    ensures forall r :: r in rs ==> BindHandlers(m, rs, flavour, preprocess, func)[r] == HandlerFor(flavour, preprocess, func, r.lhs)
    ensures forall r :: r in rs ==> BindNames(n, rs, name)[r] == name
    ensures forall r :: r in m && r !in rs ==> BindHandlers(m, rs, flavour, preprocess, func)[r] == m[r]
    ensures forall r :: r in n && r !in rs ==> BindNames(n, rs, name)[r] == n[r]
  {
    if rs != [] {
      BindSpec(m, n, rs[..|rs| - 1], flavour, preprocess, func, name);
      assert rs == rs[..|rs| - 1] + [rs[|rs| - 1]];
    }
  }

  lemma RulesOfStep(rs: seq<Rule>, lhs: Symbol)
    requires rs != []
    ensures RulesOf(rs, lhs) == RulesOf(rs[..|rs| - 1], lhs) + (if rs[|rs| - 1].lhs == lhs then [rs[|rs| - 1]] else [])
  {
  }

  /** `RulesOf` keeps exactly the rules of that lhs. */
  lemma {:induction false} RulesOfMembers(rs: seq<Rule>, lhs: Symbol)
    ensures forall r :: r in RulesOf(rs, lhs) <==> r in rs && r.lhs == lhs
  {
    if rs != [] {
      RulesOfMembers(rs[..|rs| - 1], lhs);
      assert rs == rs[..|rs| - 1] + [rs[|rs| - 1]];
    }
  }

  /**
   * Adding rules appends each to the end of its lhs's list, in order, and
   * creates the lists of new lhs's; nothing else changes.
   */
  lemma {:induction false} AddAllAppends(rules: Rules, rs: seq<Rule>)
    ensures forall lhs :: lhs in AddAll(rules, rs) <==> lhs in rules || RulesOf(rs, lhs) != []
    ensures forall lhs :: lhs in AddAll(rules, rs) ==>
      AddAll(rules, rs)[lhs] == (if lhs in rules then rules[lhs] else []) + RulesOf(rs, lhs)
  {
    if rs != [] {
      var init := rs[..|rs| - 1];
      AddAllAppends(rules, init);
      forall lhs ensures RulesOf(rs, lhs) == RulesOf(init, lhs) + (if rs[|rs| - 1].lhs == lhs then [rs[|rs| - 1]] else []) {
        RulesOfStep(rs, lhs);
      }
    }
  }

  lemma {:induction false} AddAllConcat(rules: Rules, order: seq<Symbol>, a: seq<Rule>, b: seq<Rule>)
    ensures AddAll(rules, a + b) == AddAll(AddAll(rules, a), b)
    ensures OrderAll(OrderAll(order, a), b) == OrderAll(order, a + b)
    decreases |b|
  {
    if b == [] {
      assert a + b == a;
    } else {
      var init := b[..|b| - 1];
      AddAllConcat(rules, order, a, init);
      assert (a + b)[..|a + b| - 1] == a + init;
    }
  }

  /** One more rule: the tables as `addRule`'s loop body leaves them. */
  lemma AddStep(rules: Rules, order: seq<Symbol>, rs: seq<Rule>, j: nat, m: map<Rule, Handler>, n: map<Rule, string>,
                flavour: Flavour, preprocess: bool, func: Func, name: string)
    requires j < |rs|
    ensures AddAll(rules, rs[..j + 1]) == AddOne(AddAll(rules, rs[..j]), rs[j])
    ensures OrderAll(order, rs[..j + 1]) ==
      (if rs[j].lhs in OrderAll(order, rs[..j]) then OrderAll(order, rs[..j]) else OrderAll(order, rs[..j]) + [rs[j].lhs])
    ensures BindHandlers(m, rs[..j + 1], flavour, preprocess, func) ==
      BindHandlers(m, rs[..j], flavour, preprocess, func)[rs[j] := HandlerFor(flavour, preprocess, func, rs[j].lhs)]
    ensures BindNames(n, rs[..j + 1], name) == BindNames(n, rs[..j], name)[rs[j] := name]
  {
    assert rs[..j + 1][..j] == rs[..j];
  }

  /** Adding rules keeps the table well formed and its key order exact. */
  lemma {:induction false} AddAllKeeps(rules: Rules, order: seq<Symbol>, rs: seq<Rule>)
    requires WellFormed(rules) && KeyOrder(rules, order)
    ensures WellFormed(AddAll(rules, rs)) && KeyOrder(AddAll(rules, rs), OrderAll(order, rs))
  {
    if rs != [] {
      AddAllKeeps(rules, order, rs[..|rs| - 1]);
    }
  }

  /** One more `p_` method: its rules come after those of the earlier ones. */
  lemma CollectStep(rules: Rules, order: seq<Symbol>, ms: seq<Member>, j: nat, flavour: Flavour)
    requires j < |ms|
    ensures AddAll(rules, CollectedRules(flavour, ms[..j + 1])) ==
      AddAll(AddAll(rules, CollectedRules(flavour, ms[..j])), Declared(flavour, true, ms[j].doc))
    ensures OrderAll(order, CollectedRules(flavour, ms[..j + 1])) ==
      OrderAll(OrderAll(order, CollectedRules(flavour, ms[..j])), Declared(flavour, true, ms[j].doc))
  {
    assert ms[..j + 1][..j] == ms[..j];
    AddAllConcat(rules, order, CollectedRules(flavour, ms[..j]), Declared(flavour, true, ms[j].doc));
  }

  /** Each declared name of the parser, in `_namelist` order, that starts with `p_`. */
  function RuleMethods(members: seq<Member>): seq<Member> {
    if members == [] then []
    else
      var m := members[|members| - 1];
      RuleMethods(members[..|members| - 1]) + (if |m.name| >= 2 && m.name[..2] == "p_" then [m] else [])
  }

  /** The rules `collectRules` adds, in order. */
  function CollectedRules(flavour: Flavour, members: seq<Member>): seq<Rule> {
    if members == [] then []
    else CollectedRules(flavour, members[..|members| - 1]) + Declared(flavour, true, members[|members| - 1].doc)
  }

  /** The text `augment` adds; its one rule is `START ::= |- start`. */
  function AugmentText(start: string): string {
    START + " " + MARKER + " " + BOF + " " + start
  }

  /** Whatever `start` is, the first rule `augment` adds is a rule of `START`. */
  lemma AugmentHasStart(flavour: Flavour, start: Symbol)
    ensures |Declared(flavour, false, AugmentText(start))| > 0
    ensures Declared(flavour, false, AugmentText(start))[0].lhs == START
  {
    AugmentWords(start);
    var ws := Words(AugmentText(start));
    assert ws == [START, MARKER, BOF] + Words(start);
    MarkersCorrect(ws);
    var ms := Markers(ws);
    assert ws[1] == MARKER;
    assert 1 in ms;
    var m :| 0 <= m < |ms| && ms[m] == 1;
    assert ms[0] != 0 by { assert ws[0] == START; }
    assert ms[0] == 1;
    StoreAllAt(flavour, false, ParseRules(ws));
  }

  /** After `augment`, `START` has rules. */
  lemma AugmentAddsStart(rules: Rules, flavour: Flavour, start: Symbol)
    ensures START in AddAll(rules, Declared(flavour, false, AugmentText(start)))
  {
    var rs := Declared(flavour, false, AugmentText(start));
    AugmentHasStart(flavour, start);
    AddAllAppends(rules, rs);
    RulesOfMembers(rs, START);
    assert rs[0] in RulesOf(rs, START);
  }

  /** With a one-word start symbol, `augment` adds exactly `START ::= |- start`. */
  lemma AugmentRule(flavour: Flavour, start: Symbol)
    requires Words(start) == [start] && start != MARKER
    ensures Declared(flavour, false, AugmentText(start)) == [Rule(START, [BOF, start])]
  {
    AugmentWords(start);
    assert Words(AugmentText(start)) == [START, MARKER, BOF, start];
    StartRuleWords(start);
  }

  lemma StartRuleWords(start: Symbol)
    requires start != MARKER
    ensures ParseRules([START, MARKER, BOF, start]) == [Rule(START, [BOF, start])]
  {
    var ws := [START, MARKER, BOF, start];
    assert ws[..3] == [START, MARKER, BOF];
    assert ws[..3][..2] == [START, MARKER];
    assert [START, MARKER][..1] == [START];
    assert [START][..0] == [];
    assert Markers([START]) == [];
    assert Markers([START, MARKER]) == [1];
    assert Markers([START, MARKER, BOF]) == [1];
    assert Markers(ws) == [1];
    assert RuleFor(ws, [1], 0) == Rule(START, [BOF, start]);
  }

  /** The grammar tables: well formed, with their key order, and with the start rules. */
  ghost predicate TablesOk(rules: Rules, order: seq<Symbol>) {
    WellFormed(rules) && KeyOrder(rules, order) && START in rules
  }

  /** Adding rules never takes away a rule of `START`. */
  lemma StartRuleKept(rules: Rules, rs: seq<Rule>)
    requires StartRule(rules)
    ensures StartRule(AddAll(rules, rs))
  {
    AddAllAppends(rules, rs);
    var r :| r in rules[START] && r.rhs != [];
    assert r in AddAll(rules, rs)[START];
  }

  /**
   * What holds of the parser's tables between calls: the rule tables are
   * well formed; states exist only once `START` has a rule; and while the
   * rules are unchanged, the derived tables are those of the current rules
   * and the automaton is sound for them.
   */
  ghost predicate Consistent(rules: Rules, order: seq<Symbol>, changed: bool, nullable: map<Symbol, bool>,
                             newrules: NewRules, new2old: map<Rule, Rule>, m: Machine) {
    && TablesOk(rules, order)
    && (m.states != [] ==> StartRule(rules))
    && (!changed ==>
          && Derived(rules, nullable, newrules, new2old)
          && Good(newrules, m)
          && (START in newrules ==> |m.states| >= 2))
  }

  /** The tables right after the rebuild, whether or not `makeState0` raised. */
  lemma Rebuilt(rules: Rules, order: seq<Symbol>, nullable: map<Symbol, bool>, newrules: NewRules,
                new2old: map<Rule, Rule>, r: Result<Machine, ParseError>)
    requires TablesOk(rules, order) && Derived(rules, nullable, newrules, new2old)
    requires r.Err? <==> !StartRule(rules)
    requires r.Ok? ==> START in newrules && |r.value.states| >= 2 && Good(newrules, r.value)
    ensures r.Err? ==> Consistent(rules, order, false, nullable, newrules, new2old, Machine([], map[], map[]))
    ensures r.Ok? ==> Consistent(rules, order, false, nullable, newrules, new2old, r.value)
  {
    StartProduced(rules, nullable, newrules, new2old);
  }

  /** The rebuild on the parser's tables: what `Rebuild` stores. */
  method RebuildAll(rules: Rules, order: seq<Symbol>, states: seq<State>)
    returns (nullable: map<Symbol, bool>, newrules: NewRules, new2old: map<Rule, Rule>, m: Machine, r: Outcome)
    requires TablesOk(rules, order) && (states != [] ==> StartRule(rules))
    ensures Consistent(rules, order, false, nullable, newrules, new2old, m)
    ensures r.Failed? <==> !StartRule(rules)
    ensures r.Failed? ==> r.error == Crash("KeyError") && m == Machine([], map[], map[]) && states == []
    ensures r.Done? ==> START in newrules && |m.states| >= 2 && Started(newrules, m)
  {
    var built;
    nullable, newrules, new2old, built := RebuildTables(rules, order);
    Rebuilt(rules, order, nullable, newrules, new2old, built);
    if built.Err? {
      return nullable, newrules, new2old, Machine(states, map[], map[]), Failed(built.error);
    }
    m, r := built.value, Done;
  }

  class GenericParser {
    const flavour: Flavour
    /** `typestring(token)`; `None` (or an empty string) selects `gotoST`. */
    const typestring: Token -> Option<Symbol>

    var rules: Rules
    /** The key order of `self.rules`. */
    var lhsOrder: seq<Symbol>
    var rule2func: map<Rule, Handler>
    var rule2name: map<Rule, string>
    var ruleschanged: bool
    var nullable: map<Symbol, bool>
    var newrules: NewRules
    var new2old: map<Rule, Rule>
    /**
     * `self.states` (a dict keyed by the state numbers 0, 1, 2, ...; none
     * before the first build), `self.edges` and `self.cores`.
     */
    var automaton: Machine
    var links: Links
    /** The matcher's `self.input`. */
    var input: seq<Token>

    /**
     * The rule tables are well formed; states exist only once `START` has
     * a rule; and while the rules are unchanged, the derived tables are
     * those of the current rules and the automaton is sound for them.
     */
    ghost predicate Valid()
      reads this
    {
      Consistent(rules, lhsOrder, ruleschanged, nullable, newrules, new2old, automaton)
    }

    /** The snapshot of the tables the tree builder reads. */
    function Snapshot(): (f: Forest)
      reads this
      ensures f.states == automaton.states && f.links == links && f.newrules == newrules && f.new2old == new2old
      ensures f.rule2func == rule2func && f.rule2name == rule2name && f.longest == (flavour == Matcher)
    {
      Forest(automaton.states, links, newrules, new2old, rule2func, rule2name, flavour == Matcher)
    }

    /**
     * `addRule(doc, func, _preprocess)`: one rule per `::=` of the split
     * docstring, each appended to the list of its lhs; its action and its
     * name (`func.__name__` minus its first two characters) recorded.
     */
    method AddRule(doc: string, func: Func, preprocess: bool)
      requires Valid()
      modifies this`rules, this`lhsOrder, this`rule2func, this`rule2name, this`ruleschanged
      ensures Valid() && ruleschanged
      ensures RuleTables(rules, lhsOrder, rule2func, rule2name) ==
        Added(RuleTables(old(rules), old(lhsOrder), old(rule2func), old(rule2name)), flavour, preprocess, func, doc)
    {
      var t := AddRuleTo(flavour, RuleTables(rules, lhsOrder, rule2func, rule2name), doc, func, preprocess);
      AddedKeeps(rules, lhsOrder, ruleschanged, nullable, newrules, new2old, automaton, Declared(flavour, preprocess, doc), t.rules, t.order);
      rules, lhsOrder, rule2func, rule2name, ruleschanged := t.rules, t.order, t.funcs, t.names, true;
    }

    /**
     * `__init__(start)`: `collectRules()`, then `augment(start)`; the
     * automaton is built by the first `parse`.
     */
    constructor(flavour: Flavour, typestring: Token -> Option<Symbol>, members: seq<Member>, start: Symbol)
      ensures Valid() && ruleschanged && automaton.states == []
      ensures this.flavour == flavour && this.typestring == typestring
      ensures rules == AddAll(AddAll(map[], CollectedRules(flavour, RuleMethods(members))), Declared(flavour, false, AugmentText(start)))
    {
      var t := CollectRulesTo(flavour, RuleTables(map[], [], map[], map[]), members);
      t := AugmentTo(flavour, t, start);
      this.flavour := flavour;
      this.typestring := typestring;
      rules, lhsOrder, rule2func, rule2name := t.rules, t.order, t.funcs, t.names;
      ruleschanged := true;
      nullable, newrules, new2old := map[], map[], map[];
      automaton, links, input := Machine([], map[], map[]), map[], [];
    }

    /**
     * The block of `parse` run when the rules changed. It always clears
     * `ruleschanged`, `edges` and `cores`; when `makeState0` raises
     * `KeyError` (no rule of `START` has a right-hand side) the states are
     * left as they were, which is none at all.
     */
    method Rebuild() returns (r: Outcome)
      requires Valid() && ruleschanged
      modifies this`nullable, this`newrules, this`new2old, this`ruleschanged, this`automaton
      ensures Valid() && !ruleschanged
      ensures r.Failed? <==> !StartRule(rules)
      ensures r.Failed? ==> r.error == Crash("KeyError") && automaton == Machine([], map[], map[])
      ensures r.Done? ==> START in newrules && |automaton.states| >= 2 && Started(newrules, automaton)
    {
      var nl, nr, no, built;
      nl, nr, no, built, r := RebuildAll(rules, lhsOrder, automaton.states);
      nullable, newrules, new2old, ruleschanged, automaton := nl, nr, no, false, built;
    }

    /**
     * `parse(tokens)`: fresh links, the rebuild when the rules changed,
     * the Earley sets, and the tree of `START` from the final item when it
     * is in the last but one set; otherwise the syntax error `error`
     * raises. The automaton only grows unless it was rebuilt.
     */
    method Parse(tokens: seq<Token>, fuel: nat) returns (r: Result<Value, ParseError>, ghost run: Option<Sweep>, ghost begun: Machine)
      requires Valid()
      modifies this`links, this`automaton, this`nullable, this`newrules, this`new2old, this`ruleschanged
      ensures Valid() && !ruleschanged
      ensures Parsed(old(ruleschanged), old(automaton), tokens, fuel, r, run, begun)
    {
      if ruleschanged {
        var built := Rebuild();
        if built.Failed? {
          links := map[];
          return Err(built.error), None, automaton;
        }
      }
      begun := automaton;
      r, run := ParseBuilt(tokens, fuel);
    }

    /**
     * What `parse(tokens)` leaves, from `changed` (whether the rules had
     * changed) and the automaton `before` it: without a rebuild the loop
     * starts from `before` and the automaton only grows; after one, from
     * states 0 and 1 of the new tables; without a usable start rule the
     * exception of the failed rebuild or of the unset states; otherwise the
     * Earley sets, the final state and the answer `Concluded` describes,
     * or one of the exceptions `Raised` allows.
     */
    ghost predicate Parsed(changed: bool, before: Machine, tokens: seq<Token>, fuel: nat, r: Result<Value, ParseError>,
                           run: Option<Sweep>, begun: Machine)
      reads this
    {
      && (!changed ==> begun == before && Extends(begun, automaton))
      && (changed && StartRule(rules) ==> START in newrules && |begun.states| >= 2 && Started(newrules, begun))
      && (!StartRule(rules) ==> r == Err(if changed then Crash("KeyError") else Unbuilt(tokens, typestring)))
      && (run.Some? ==>
            run.value.start == begun && Concluded(newrules, rules, automaton, links, tokens, typestring, fuel, Snapshot(), run.value, r))
      && (run.None? && StartRule(rules) ==> r.Err? && Raised(newrules, rules, StaleItems(|begun.states|) != [], r.error))
    }

    /**
     * The rest of `parse` once its tables are those of the rules: `self.links`
     * cleared, the loop over the tokens, `finalState` and the answer.
     */
    method ParseBuilt(tokens: seq<Token>, fuel: nat) returns (r: Result<Value, ParseError>, ghost run: Option<Sweep>)
      requires Valid() && !ruleschanged
      modifies this`links, this`automaton
      ensures Valid() && Extends(old(automaton), automaton)
      ensures !StartRule(rules) ==> r == Err(Unbuilt(tokens, typestring))
      ensures run.Some? ==>
        run.value.start == old(automaton) && Concluded(newrules, rules, automaton, links, tokens, typestring, fuel, Snapshot(), run.value, r)
      ensures run.None? && StartRule(rules) ==> r.Err? && Raised(newrules, rules, StaleItems(|old(automaton).states|) != [], r.error)
    {
      links := map[];
      StartProduced(rules, nullable, newrules, new2old);
      if START !in newrules {
        return Err(Unbuilt(tokens, typestring)), None;
      }
      var m, links';
      m, links', run, r := Accept(newrules, rules, automaton, tokens, typestring, fuel, Snapshot());
      automaton, links := m, links';
    }

    /**
     * `match_r(node)`: the node goes in front of `self.input`, then `(`
     * before the first child, each child's own tokens, and `)` after the
     * last, so the input ends up the reversed prefix serialisation of the
     * tree (see `Trees.FlippedReversed`).
     */
    method MatchR(node: Ast)
      modifies this`input
      ensures input == Flipped(node) + old(input)
      decreases node
    {
      input := [AstToken(node)] + input;
      var children := 0;
      for j := 0 to |node.kids|
        invariant children == j
        invariant input == FlippedKids(node, j) + (if j > 0 then [Word("(")] else []) + [AstToken(node)] + old(input)
      {
        if children == 0 {
          input := [Word("(")] + input;
        }
        children := children + 1;
        MatchR(node.kids[j]);
      }
      if children > 0 {
        input := [Word(")")] + input;
      }
    }

    /**
     * `match(ast)`: a fresh `self.input` filled by `match_r(ast)` and parsed
     * with the matcher's grammar, whose right-hand sides are reversed; the
     * value of `parse` is dropped, its errors are not.
     */
    method Match(ast: Ast, fuel: nat) returns (r: Outcome, parsed: Result<Value, ParseError>, ghost run: Option<Sweep>,
                                               ghost begun: Machine)
      requires Valid()
      modifies this`input, this`links, this`automaton, this`nullable, this`newrules, this`new2old, this`ruleschanged
      ensures input == Flipped(ast) && Valid() && !ruleschanged
      ensures r == (if parsed.Err? then Failed(parsed.error) else Done)
      ensures Parsed(old(ruleschanged), old(automaton), input, fuel, parsed, run, begun)
    {
      ghost var changed, before := ruleschanged, automaton;
      input := [];
      MatchR(ast);
      assert ruleschanged == changed && automaton == before;
      parsed, run, begun := Parse(input, fuel);
      r := if parsed.Err? then Failed(parsed.error) else Done;
    }
  }

  /** The rule table after `addRule` keeps what `Valid` asks of it. */
  lemma AddedKeeps(rules: Rules, order: seq<Symbol>, changed: bool, nullable: map<Symbol, bool>, newrules: NewRules,
                   new2old: map<Rule, Rule>, m: Machine, rs: seq<Rule>, rules': Rules, order': seq<Symbol>)
    requires Consistent(rules, order, changed, nullable, newrules, new2old, m)
    requires rules' == AddAll(rules, rs) && WellFormed(rules') && KeyOrder(rules', order')
    ensures Consistent(rules', order', true, nullable, newrules, new2old, m)
  {
    AddAllAppends(rules, rs);
    if m.states != [] {
      StartRuleKept(rules, rs);
    }
  }

  /**
   * The builder's `preprocess`: `addRule` binds every rule it adds to
   * `buildASTNode` for that rule's own lhs, and leaves the other entries
   * of `rule2func` alone.
   */
  lemma BuilderBinds(t: RuleTables, doc: string, func: Func)
    ensures var t' := Added(t, Builder, true, func, doc);
      && (forall r :: r in Declared(Builder, true, doc) ==> r in t'.funcs && t'.funcs[r] == BuildNode(r.lhs))
      && (forall r :: r in t.funcs && r !in Declared(Builder, true, doc) ==> r in t'.funcs && t'.funcs[r] == t.funcs[r])
  {
    BindSpec(t.funcs, t.names, Declared(Builder, true, doc), Builder, true, func, NameSuffix(FuncName(func)));
  }

  /** The four tables `addRule` fills: `rules` (with its key order), `rule2func` and `rule2name`. */
  datatype RuleTables = RuleTables(rules: Rules, order: seq<Symbol>, funcs: map<Rule, Handler>, names: map<Rule, string>)

  /** The tables after `addRule(doc, func, _preprocess)`. */
  function Added(t: RuleTables, flavour: Flavour, preprocess: bool, func: Func, doc: string): RuleTables {
    var rs := Declared(flavour, preprocess, doc);
    RuleTables(AddAll(t.rules, rs), OrderAll(t.order, rs), BindHandlers(t.funcs, rs, flavour, preprocess, func),
               BindNames(t.names, rs, NameSuffix(FuncName(func))))
  }

  /** The loop of `addRule` over the rules of `doc`, on the tables `t`. */
  method AddRuleTo(flavour: Flavour, t: RuleTables, doc: string, func: Func, preprocess: bool) returns (t': RuleTables)
    requires WellFormed(t.rules) && KeyOrder(t.rules, t.order)
    ensures t' == Added(t, flavour, preprocess, func, doc)
    ensures WellFormed(t'.rules) && KeyOrder(t'.rules, t'.order)
  {
    var rs := Declared(flavour, preprocess, doc);
    var name := NameSuffix(FuncName(func));
    var rules, order, funcs, names := t.rules, t.order, t.funcs, t.names;
    for j := 0 to |rs|
      invariant rules == AddAll(t.rules, rs[..j]) && order == OrderAll(t.order, rs[..j])
      invariant KeyOrder(rules, order)
      invariant funcs == BindHandlers(t.funcs, rs[..j], flavour, preprocess, func)
      invariant names == BindNames(t.names, rs[..j], name)
    {
      var rule := rs[j];
      ghost var added := AddOne(rules, rule);
      if rule.lhs in rules {
        rules := rules[rule.lhs := rules[rule.lhs] + [rule]];
      } else {
        assert [rule] == [] + [rule];
        rules := rules[rule.lhs := [rule]];
        order := order + [rule.lhs];
      }
      assert rules == added;
      AddStep(t.rules, t.order, rs, j, t.funcs, t.names, flavour, preprocess, func, name);
      AddAllKeeps(t.rules, t.order, rs[..j + 1]);
      funcs := funcs[rule := HandlerFor(flavour, preprocess, func, rule.lhs)];
      names := names[rule := name];
    }
    assert rs[..|rs|] == rs;
    AddAllKeeps(t.rules, t.order, rs);
    t' := RuleTables(rules, order, funcs, names);
  }

  /** `collectRules()`: one `addRule(doc, func)` per `p_` method, in `_namelist` order. */
  method CollectRulesTo(flavour: Flavour, t: RuleTables, members: seq<Member>) returns (t': RuleTables)
    requires WellFormed(t.rules) && KeyOrder(t.rules, t.order)
    ensures t'.rules == AddAll(t.rules, CollectedRules(flavour, RuleMethods(members)))
    ensures t'.order == OrderAll(t.order, CollectedRules(flavour, RuleMethods(members)))
    ensures WellFormed(t'.rules) && KeyOrder(t'.rules, t'.order)
  {
    var ms := RuleMethods(members);
    t' := t;
    for j := 0 to |ms|
      invariant t'.rules == AddAll(t.rules, CollectedRules(flavour, ms[..j]))
      invariant t'.order == OrderAll(t.order, CollectedRules(flavour, ms[..j]))
      invariant WellFormed(t'.rules) && KeyOrder(t'.rules, t'.order)
    {
      CollectStep(t.rules, t.order, ms, j, flavour);
      t' := AddRuleTo(flavour, t', ms[j].doc, Method(ms[j].name), true);
    }
    assert ms[..|ms|] == ms;
  }

  /**
   * `augment(start)`: the rules of the text `START ::= |- start`, added
   * without `preprocess`, with the lambda (named `ambda>`) as their action.
   */
  method AugmentTo(flavour: Flavour, t: RuleTables, start: Symbol) returns (t': RuleTables)
    requires WellFormed(t.rules) && KeyOrder(t.rules, t.order)
    ensures t' == Added(t, flavour, false, Lambda, AugmentText(start))
    ensures t'.names == BindNames(t.names, Declared(flavour, false, AugmentText(start)), "ambda>")
    ensures TablesOk(t'.rules, t'.order)
  {
    t' := AddRuleTo(flavour, t, AugmentText(start), Lambda, false);
    assert NameSuffix(FuncName(Lambda)) == "ambda>";
    AugmentAddsStart(t.rules, flavour, start);
  }
}
