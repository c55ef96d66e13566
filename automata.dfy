/**
 * The lazily built automaton of `GenericParser`: its states
 * (`self.states`), edges (`self.edges`, with `None` placeholders for
 * targets not built yet) and interned cores (`self.cores`), and the
 * operations that grow it: `makeState0`, `makeState`, `goto`, `gotoT` and
 * `gotoST`.
 */
module Automata {
  import opened Wrappers
  import opened Ordering
  import opened Grammar
  import opened States
  import opened Values

  /** `self.states`, `self.edges` and `self.cores`: the automaton built so far. */
  datatype Machine = Machine(states: seq<State>, edges: Edges, cores: map<CoreKey, nat>)

  /**
   * State `i` is numbered `i`. State 0 (`makeState0`) records no completed
   * rules and no terminals; every later state records those of its items.
   */
  ghost predicate StatesOk(newrules: NewRules, states: seq<State>) {
    forall i :: 0 <= i < |states| ==>
      && states[i].stateno == i
      && states[i].complete == (if i == 0 then [] else Completed(states[i].items))
      && states[i].t == (if i == 0 then [] else Dedup(NextTerminals(newrules, states[i].items)))
  }

  /**
   * Edges leave states built by `makeState` (state 0 has none); a state has
   * an edge on exactly the symbols after its dots; a built edge on a symbol
   * leads to the state of the shifted kernel; the edge to a non-kernel
   * state is always built and leads to the closure of the kernel.
   */
  ghost predicate EdgesOk(newrules: NewRules, edges: Edges, states: seq<State>) {
    && (forall key :: key in edges ==> 0 < key.0 < |states|)
    && (forall key :: key in edges && edges[key].Some? ==> edges[key].value < |states|)
    && (forall i, s :: 0 < i < |states| ==> ((i, On(s)) in edges <==> s in NextSymbols(states[i].items)))
    && (forall i, s :: (i, On(s)) in edges && edges[(i, On(s))].Some? ==>
          states[edges[(i, On(s))].value].items == KernelOf(states[i].items, s))
    && (forall i :: (i, Eps) in edges ==>
          edges[(i, Eps)].Some? && ClosureOf(newrules, states[i].items, states[edges[(i, Eps)].value].items))
  }

  /**
   * A memoised kernel leads to the state with exactly those items; a
   * memoised set of predicted nonterminals to a state holding exactly
   * their predictions.
   */
  ghost predicate CoresOk(newrules: NewRules, cores: map<CoreKey, nat>, states: seq<State>) {
    && (forall key :: key in cores ==> cores[key] < |states|)
    && (forall key :: key in cores && key.KernelKey? ==> states[cores[key]].items == key.items)
    && (forall key, it :: key in cores && key.PredictedKey? ==>
          (it in states[cores[key]].items <==> it in PredictAll(newrules, key.syms)))
  }

  ghost predicate Good(newrules: NewRules, m: Machine) {
    StatesOk(newrules, m.states) && EdgesOk(newrules, m.edges, m.states) && CoresOk(newrules, m.cores, m.states)
  }

  /**
   * `m1` grew from `m0`: states are only appended, memoised cores and built
   * edges keep their targets, placeholders may be built, and only new
   * states get new edges.
   */
  ghost predicate Extends(m0: Machine, m1: Machine) {
    && m0.states <= m1.states
    && (forall key :: key in m0.cores ==> key in m1.cores && m1.cores[key] == m0.cores[key])
    && (forall key :: key in m0.edges ==> key in m1.edges && (m0.edges[key].Some? ==> m1.edges[key] == m0.edges[key]))
    && (forall key :: key in m1.edges && key.0 < |m0.states| ==> key in m0.edges)
  }

  lemma ExtendsTrans(m0: Machine, m1: Machine, m2: Machine)
    requires Extends(m0, m1) && Extends(m1, m2)
    ensures Extends(m0, m2)
  {
  }

  // ---------------------------------------------------------------------
  // makeState0
  // ---------------------------------------------------------------------

  /** `makeState0()`: state 0 holds every rule of `START` with the dot at 0. */
  method MakeState0(newrules: NewRules) returns (r: Result<State, ParseError>)
    ensures START !in newrules ==> r == Err(Crash("KeyError"))
    ensures START in newrules ==> r.Ok? && r.value.stateno == 0 && r.value.complete == [] && r.value.t == []
    ensures START in newrules ==>
      && |r.value.items| == |newrules[START]|
      && (forall j :: 0 <= j < |newrules[START]| ==> r.value.items[j] == Item(newrules[START][j], 0))
  {
    if START !in newrules {
      return Err(Crash("KeyError"));
    }
    var rs := newrules[START];
    var items: seq<Item> := [];
    for j := 0 to |rs|
      invariant |items| == j && forall n :: 0 <= n < j ==> items[n] == Item(rs[n], 0)
    {
      items := items + [Item(rs[j], 0)];
    }
    r := Ok(State(0, items, [], []));
  }

  /** The automaton `parse` starts from: state 0 alone, no edges, no cores. */
  lemma Initial(newrules: NewRules, s0: State)
    requires s0.stateno == 0 && s0.complete == [] && s0.t == []
    ensures Good(newrules, Machine([s0], map[], map[]))
  {
  }

  // ---------------------------------------------------------------------
  // makeState
  // ---------------------------------------------------------------------

  /**
   * `makeState(state, sym)`: the state whose kernel is the items of
   * `state` shifted over `sym`. A kernel already in `cores` gives its
   * state and changes nothing. A new kernel gets the next id, its
   * completed rules, terminals and placeholder edges; its non-kernel
   * companion (the closure of its predictions) is either an existing state
   * with the same predicted nonterminals or the new state `k + 1`.
   */
  method MakeState(newrules: NewRules, m: Machine, state: nat, sym: Symbol) returns (m': Machine, k: nat)
    requires Good(newrules, m) && state < |m.states|
    ensures Made(newrules, m, state, sym, m', k)
  {
    var kitems := Kernel(m.states[state].items, sym);
    var kkey := KernelKey(kitems);
    if kkey in m.cores {
      Memoised(newrules, m, state, sym);
      return m, m.cores[kkey];
    }
    KernelInRange(m.states[state].items, sym);
    m', k := NewState(newrules, m, kitems);
    Built(newrules, m, state, sym, m', k);
  }

  /**
   * What `makeState(state, sym)` promises: a good automaton grown from
   * `m` whose state `k` holds the shifted kernel under its memoised core;
   * nothing changes when the kernel was memoised; otherwise `k` is the next
   * id, followed by its companion `k + 1` when that is new, and without an
   * ε-edge the kernel predicts nothing.
   */
  ghost predicate Made(newrules: NewRules, m: Machine, state: nat, sym: Symbol, m': Machine, k: nat)
    requires state < |m.states|
  {
    var kitems := KernelOf(m.states[state].items, sym);
    && Good(newrules, m') && Extends(m, m')
    && k < |m'.states| && m'.states[k].items == kitems
    && KernelKey(kitems) in m'.cores && m'.cores[KernelKey(kitems)] == k
    && (KernelKey(kitems) in m.cores ==> m' == m)
    && (KernelKey(kitems) !in m.cores ==>
         && k == |m.states|
         && (|m'.states| == k + 1 || (|m'.states| == k + 2 && (k, Eps) in m'.edges && m'.edges[(k, Eps)] == Some(k + 1)))
         && ((k, Eps) !in m'.edges ==> ClosureOf(newrules, m'.states[k].items, [])))
  }

  /** A memoised kernel: `makeState` returns its state and changes nothing. */
  lemma Memoised(newrules: NewRules, m: Machine, state: nat, sym: Symbol)
    requires Good(newrules, m) && state < |m.states| && KernelKey(KernelOf(m.states[state].items, sym)) in m.cores
    ensures Made(newrules, m, state, sym, m, m.cores[KernelKey(KernelOf(m.states[state].items, sym))])
  {
  }

  /** A new kernel: what `NewState` commits is what `makeState` promises. */
  lemma Built(newrules: NewRules, m: Machine, state: nat, sym: Symbol, m': Machine, k: nat)
    requires state < |m.states| && KernelKey(KernelOf(m.states[state].items, sym)) !in m.cores
    requires Committed(newrules, m, KernelOf(m.states[state].items, sym), m', k)
    ensures Made(newrules, m, state, sym, m', k)
  {
  }

  /** Shifting a dot keeps it within its rule. */
  lemma KernelInRange(items: seq<Item>, sym: Symbol)
    ensures ItemsInRange(KernelOf(items, sym))
  {
    ShiftedMembers(items, sym);
    SortMembers(Shifted(items, sym), ItemLess);
  }

  /**
   * What `makeState` leaves behind for a new kernel `kitems`: a good
   * automaton grown from `m` whose state `k`, the next id, holds the kernel
   * under its memoised core, followed by its companion `k + 1` when that is
   * new; without an ε-edge the kernel predicts nothing.
   */
  ghost predicate Committed(newrules: NewRules, m: Machine, kitems: seq<Item>, m': Machine, k: nat) {
    && Good(newrules, m') && Extends(m, m')
    && k == |m.states| && k < |m'.states| && m'.states[k].items == kitems
    && KernelKey(kitems) in m'.cores && m'.cores[KernelKey(kitems)] == k
    && (|m'.states| == k + 1 || (|m'.states| == k + 2 && (k, Eps) in m'.edges && m'.edges[(k, Eps)] == Some(k + 1)))
    && ((k, Eps) !in m'.edges ==> ClosureOf(newrules, kitems, []))
  }

  /** The kernel state alone, when it predicts nothing. */
  function KernelMachine(m: Machine, kitems: seq<Item>, p: Pass): Machine {
    Machine(m.states + [State(|m.states|, kitems, p.complete, p.t)], p.edges, m.cores[KernelKey(kitems) := |m.states|])
  }

  /** The kernel state with an ε-edge to the existing companion `target`. */
  function SharedMachine(m: Machine, kitems: seq<Item>, p: Pass, target: nat): Machine {
    Machine(m.states + [State(|m.states|, kitems, p.complete, p.t)], p.edges[(|m.states|, Eps) := Some(target)],
            m.cores[KernelKey(kitems) := |m.states|])
  }

  /** The kernel state and its new companion `k + 1`. */
  function CompanionMachine(m: Machine, kitems: seq<Item>, p: Pass, q: Pass): Machine {
    var k := |m.states|;
    Machine(m.states + [State(k, kitems, p.complete, p.t), State(k + 1, q.nkitems, q.complete, q.t)],
            p.edges[(k, Eps) := Some(k + 1)] + q.edges,
            m.cores[KernelKey(kitems) := k][PredictedKey(Sort(q.predicted, StrLess)) := k + 1])
  }

  /** `makeState` past the memo test: the new kernel state and its companion. */
  method NewState(newrules: NewRules, m: Machine, kitems: seq<Item>) returns (m': Machine, k: nat)
    requires Good(newrules, m) && |m.states| > 0
    requires KernelKey(kitems) !in m.cores && ItemsInRange(kitems)
    ensures Committed(newrules, m, kitems, m', k)
  {
    k := |m.states|;
    var p, q := Passes(newrules, k, kitems, m.edges);
    m' := Commit(newrules, m, kitems, p, q);
  }

  /**
   * The two worklist passes of `makeState`: over the kernel state `k`,
   * then over the items it predicts, which form the companion `k + 1`.
   */
  method Passes(newrules: NewRules, k: nat, kitems: seq<Item>, edges: Edges) returns (p: Pass, q: Pass)
    requires ItemsInRange(kitems) && forall key :: key in edges ==> key.0 < k
    ensures Collected(newrules, kitems, p.complete, p.t) && EdgesAdded(k, edges, kitems, p.edges)
    ensures Collected(newrules, q.nkitems, q.complete, q.t) && EdgesAdded(k + 1, map[], q.nkitems, q.edges)
    ensures q.nkitems == PredictAll(newrules, q.predicted) && ClosureOf(newrules, kitems, q.nkitems)
  {
    p := KernelPass(newrules, k, kitems, edges);
    assert [] + kitems == kitems;
    q := NonKernelPass(newrules, k, kitems, p);
    Closure(newrules, k, kitems, q);
  }

  /** The three ways `makeState` stores a new kernel state, after its two passes. */
  method Commit(newrules: NewRules, m: Machine, kitems: seq<Item>, p: Pass, q: Pass) returns (m': Machine)
    requires Good(newrules, m) && |m.states| > 0 && KernelKey(kitems) !in m.cores
    requires Collected(newrules, kitems, p.complete, p.t) && EdgesAdded(|m.states|, m.edges, kitems, p.edges)
    requires Collected(newrules, q.nkitems, q.complete, q.t) && EdgesAdded(|m.states| + 1, map[], q.nkitems, q.edges)
    requires q.nkitems == PredictAll(newrules, q.predicted) && ClosureOf(newrules, kitems, q.nkitems)
    ensures Committed(newrules, m, kitems, m', |m.states|)
  {
    var pkey := PredictedKey(Sort(q.predicted, StrLess));
    if q.nkitems == [] {
      m' := KernelMachine(m, kitems, p);
      KernelBranch(newrules, m, kitems, p);
    } else if pkey in m.cores {
      m' := SharedMachine(m, kitems, p, m.cores[pkey]);
      SharedBranch(newrules, m, kitems, p, q);
    } else {
      m' := CompanionMachine(m, kitems, p, q);
      CompanionBranch(newrules, m, kitems, p, q);
    }
  }

  lemma KernelBranch(newrules: NewRules, m: Machine, kitems: seq<Item>, p: Pass)
    requires Good(newrules, m) && |m.states| > 0 && KernelKey(kitems) !in m.cores
    requires Collected(newrules, kitems, p.complete, p.t) && EdgesAdded(|m.states|, m.edges, kitems, p.edges)
    requires ClosureOf(newrules, kitems, [])
    ensures Committed(newrules, m, kitems, KernelMachine(m, kitems, p), |m.states|)
  {
    KernelCommitted(newrules, m, kitems, p);
  }

  lemma SharedBranch(newrules: NewRules, m: Machine, kitems: seq<Item>, p: Pass, q: Pass)
    requires Good(newrules, m) && |m.states| > 0 && KernelKey(kitems) !in m.cores
    requires Collected(newrules, kitems, p.complete, p.t) && EdgesAdded(|m.states|, m.edges, kitems, p.edges)
    requires q.nkitems == PredictAll(newrules, q.predicted) && ClosureOf(newrules, kitems, q.nkitems)
    requires PredictedKey(Sort(q.predicted, StrLess)) in m.cores
    ensures Committed(newrules, m, kitems, SharedMachine(m, kitems, p, m.cores[PredictedKey(Sort(q.predicted, StrLess))]), |m.states|)
  {
    SharedCommitted(newrules, m, kitems, p, q);
  }

  lemma CompanionBranch(newrules: NewRules, m: Machine, kitems: seq<Item>, p: Pass, q: Pass)
    requires Good(newrules, m) && |m.states| > 0 && KernelKey(kitems) !in m.cores
    requires Collected(newrules, kitems, p.complete, p.t) && EdgesAdded(|m.states|, m.edges, kitems, p.edges)
    requires Collected(newrules, q.nkitems, q.complete, q.t) && EdgesAdded(|m.states| + 1, map[], q.nkitems, q.edges)
    requires q.nkitems == PredictAll(newrules, q.predicted) && ClosureOf(newrules, kitems, q.nkitems)
    requires PredictedKey(Sort(q.predicted, StrLess)) !in m.cores
    ensures Committed(newrules, m, kitems, CompanionMachine(m, kitems, p, q), |m.states|)
  {
    CompanionGood(newrules, m, kitems, p, q);
    CompanionExtendsOf(m, kitems, p, q);
  }

  /**
   * A value of `self.states` as the source stores it: a `_State`, or the
   * bare state number that `makeState` stores for a new companion.
   */
  datatype Slot = Stored(state: State) | Number(n: nat)

  /**
   * `self.states` after the companion branch of `makeState` as written:
   * the chained assignment rebinds `nk` to `nk.stateno`, so
   * `self.states[nk] = nk` stores the number `k + 1` under key `k + 1`.
   */
  function CompanionSlotsAsWritten(m: Machine, kitems: seq<Item>, p: Pass): (slots: seq<Slot>)
    ensures |slots| == |m.states| + 2
    ensures forall j :: 0 <= j < |m.states| ==> slots[j] == Stored(m.states[j])
  {
    var k := |m.states|;
    Slots(m.states) + [Stored(State(k, kitems, p.complete, p.t)), Number(k + 1)]
  }

  /** Every state of `states`, stored as a `_State`. */
  function Slots(states: seq<State>): (slots: seq<Slot>)
    ensures |slots| == |states| && forall j :: 0 <= j < |states| ==> slots[j] == Stored(states[j])
  {
    if states == [] then [] else Slots(states[..|states| - 1]) + [Stored(states[|states| - 1])]
  }

  /**
   * `self.states[j].items` (or `.t`, `.complete`): an `int` has none of
   * these attributes. `CompanionAsWritten` states where that bites.
   */
  function ItemsOf(slots: seq<Slot>, j: nat): (r: Result<seq<Item>, ParseError>)
    requires j < |slots|
    ensures r.Err? <==> slots[j].Number?
    ensures r.Ok? ==> r.value == slots[j].state.items
  {
    match slots[j]
    case Stored(s) => Ok(s.items)
    case Number(_) => Err(Crash("AttributeError"))
  }

  /**
   * The companion branch as written loses the companion: its ε-edge from
   * the kernel state `k` is committed, so `goto(k, None)` yields `k + 1`
   * and `makeSet` adds an item of that state, but reading the state
   * raises `AttributeError`, where the corrected `CompanionMachine` holds
   * the (non-empty) predicted items. Every other state agrees.
   */
  lemma CompanionAsWritten(newrules: NewRules, m: Machine, kitems: seq<Item>, p: Pass, q: Pass)
    requires Good(newrules, m) && |m.states| > 0 && KernelKey(kitems) !in m.cores
    requires Collected(newrules, kitems, p.complete, p.t) && EdgesAdded(|m.states|, m.edges, kitems, p.edges)
    requires Collected(newrules, q.nkitems, q.complete, q.t) && EdgesAdded(|m.states| + 1, map[], q.nkitems, q.edges)
    requires q.nkitems == PredictAll(newrules, q.predicted) && ClosureOf(newrules, kitems, q.nkitems)
    requires PredictedKey(Sort(q.predicted, StrLess)) !in m.cores && q.nkitems != []
    ensures var k, slots, m' := |m.states|, CompanionSlotsAsWritten(m, kitems, p), CompanionMachine(m, kitems, p, q);
      && (k, Eps) in m'.edges && m'.edges[(k, Eps)] == Some(k + 1)
      && ItemsOf(slots, k + 1) == Err(Crash("AttributeError"))
      && m'.states[k + 1].items == q.nkitems
      && (forall j :: 0 <= j <= k ==> ItemsOf(slots, j) == Ok(m'.states[j].items))
  {
    CompanionBranch(newrules, m, kitems, p, q);
  }

  /** An existing companion with the same predicted nonterminals: the kernel state's ε-edge leads to it. */
  lemma SharedCommitted(newrules: NewRules, m: Machine, kitems: seq<Item>, p: Pass, q: Pass)
    requires Good(newrules, m) && |m.states| > 0 && KernelKey(kitems) !in m.cores
    requires Collected(newrules, kitems, p.complete, p.t) && EdgesAdded(|m.states|, m.edges, kitems, p.edges)
    requires q.nkitems == PredictAll(newrules, q.predicted) && ClosureOf(newrules, kitems, q.nkitems)
    requires PredictedKey(Sort(q.predicted, StrLess)) in m.cores
    ensures var m' := SharedMachine(m, kitems, p, m.cores[PredictedKey(Sort(q.predicted, StrLess))]);
      Good(newrules, m') && Extends(m, m')
  {
    var k := |m.states|;
    var m1 := KernelMachine(m, kitems, p);
    KernelCommitted(newrules, m, kitems, p);
    var pkey := PredictedKey(Sort(q.predicted, StrLess));
    var target := m.cores[pkey];
    SharedItems(newrules, m, q.predicted, q.nkitems, target);
    assert m1.states[target] == m.states[target];
    ClosureSameItems(newrules, kitems, q.nkitems, m1.states[target].items);
    AddEps(newrules, m, m1, k, target);
  }

  /** The memoised companion holds the same items as the one just computed. */
  lemma SharedItems(newrules: NewRules, m: Machine, predicted: seq<Symbol>, nkitems: seq<Item>, target: nat)
    requires CoresOk(newrules, m.cores, m.states)
    requires nkitems == PredictAll(newrules, predicted)
    requires PredictedKey(Sort(predicted, StrLess)) in m.cores && target == m.cores[PredictedKey(Sort(predicted, StrLess))]
    ensures target < |m.states| && forall it :: it in m.states[target].items <==> it in nkitems
  {
    SortMembers(predicted, StrLess);
    PredictAllSameSymbols(newrules, predicted, Sort(predicted, StrLess));
  }

  /** A new companion keeps the automaton good. */
  lemma CompanionGood(newrules: NewRules, m: Machine, kitems: seq<Item>, p: Pass, q: Pass)
    requires Good(newrules, m) && |m.states| > 0 && KernelKey(kitems) !in m.cores
    requires Collected(newrules, kitems, p.complete, p.t) && EdgesAdded(|m.states|, m.edges, kitems, p.edges)
    requires Collected(newrules, q.nkitems, q.complete, q.t) && EdgesAdded(|m.states| + 1, map[], q.nkitems, q.edges)
    requires q.nkitems == PredictAll(newrules, q.predicted) && ClosureOf(newrules, kitems, q.nkitems)
    requires PredictedKey(Sort(q.predicted, StrLess)) !in m.cores
    ensures Good(newrules, CompanionMachine(m, kitems, p, q))
  {
    var k := |m.states|;
    var ks := State(k, kitems, p.complete, p.t);
    var nks := State(k + 1, q.nkitems, q.complete, q.t);
    CompanionStatesCores(newrules, m.states, m.cores, ks, nks, p, q);
    CompanionEdgesAll(newrules, m.edges, m.states, ks, nks, p, q);
  }

  lemma CompanionStatesCores(newrules: NewRules, states: seq<State>, cores: map<CoreKey, nat>, ks: State, nks: State, p: Pass, q: Pass)
    requires StatesOk(newrules, states) && CoresOk(newrules, cores, states) && |states| > 0
    requires ks == State(|states|, ks.items, p.complete, p.t) && KernelKey(ks.items) !in cores
    requires nks == State(|states| + 1, q.nkitems, q.complete, q.t)
    requires Collected(newrules, ks.items, p.complete, p.t) && Collected(newrules, q.nkitems, q.complete, q.t)
    requires q.nkitems == PredictAll(newrules, q.predicted) && PredictedKey(Sort(q.predicted, StrLess)) !in cores
    ensures StatesOk(newrules, states + [ks, nks])
    ensures CoresOk(newrules, cores[KernelKey(ks.items) := |states|][PredictedKey(Sort(q.predicted, StrLess)) := |states| + 1], states + [ks, nks])
  {
    var ss1 := states + [ks];
    KernelStates(newrules, states, cores, ks.items, p);
    AppendTwo(states, ks, nks);
    CompanionStates(newrules, ss1, nks, q);
    CompanionCores(newrules, cores[KernelKey(ks.items) := |states|], ss1, nks, q);
  }

  lemma CompanionEdgesAll(newrules: NewRules, edges: Edges, states: seq<State>, ks: State, nks: State, p: Pass, q: Pass)
    requires EdgesOk(newrules, edges, states) && |states| > 0
    requires EdgesAdded(|states|, edges, ks.items, p.edges) && EdgesAdded(|states| + 1, map[], q.nkitems, q.edges)
    requires nks.items == q.nkitems && ClosureOf(newrules, ks.items, q.nkitems)
    ensures EdgesOk(newrules, p.edges[(|states|, Eps) := Some(|states| + 1)] + q.edges, states + [ks, nks])
  {
    var k := |states|;
    var ss1 := states + [ks];
    var ss2 := states + [ks, nks];
    KernelEdges(newrules, edges, states, ks, p.edges);
    AppendTwo(states, ks, nks);
    CompanionEdges(newrules, p.edges, ss1, nks, q);
    assert (k, Eps) !in q.edges;
    EpsEdge(newrules, p.edges + q.edges, ss2, k, k + 1);
    UpdateThenMerge(p.edges, q.edges, (k, Eps), Some(k + 1));
  }

  lemma CompanionExtendsOf(m: Machine, kitems: seq<Item>, p: Pass, q: Pass)
    requires forall key :: key in m.edges ==> key.0 < |m.states|
    requires EdgesAdded(|m.states|, m.edges, kitems, p.edges) && EdgesAdded(|m.states| + 1, map[], q.nkitems, q.edges)
    requires KernelKey(kitems) !in m.cores && PredictedKey(Sort(q.predicted, StrLess)) !in m.cores
    ensures Extends(m, CompanionMachine(m, kitems, p, q))
  {
    var k := |m.states|;
    CompanionExtends(m, State(k, kitems, p.complete, p.t), State(k + 1, q.nkitems, q.complete, q.t),
                     p.edges, q.edges, m.cores[KernelKey(kitems) := k][PredictedKey(Sort(q.predicted, StrLess)) := k + 1]);
  }

  lemma AppendTwo<T>(s: seq<T>, x: T, y: T)
    ensures s + [x] + [y] == s + [x, y]
  {
  }

  lemma CompanionStates(newrules: NewRules, states: seq<State>, nks: State, q: Pass)
    requires StatesOk(newrules, states) && |states| > 0 && nks == State(|states|, q.nkitems, q.complete, q.t)
    requires Collected(newrules, q.nkitems, q.complete, q.t)
    ensures StatesOk(newrules, states + [nks])
  {
    var ss := states + [nks];
    forall i | 0 <= i < |states| ensures ss[i] == states[i] { }
  }

  lemma CompanionCores(newrules: NewRules, cores: map<CoreKey, nat>, states: seq<State>, nks: State, q: Pass)
    requires CoresOk(newrules, cores, states) && nks.items == q.nkitems
    requires PredictedKey(Sort(q.predicted, StrLess)) !in cores
    requires q.nkitems == PredictAll(newrules, q.predicted)
    ensures CoresOk(newrules, cores[PredictedKey(Sort(q.predicted, StrLess)) := |states|], states + [nks])
  {
    var ss := states + [nks];
    forall i | 0 <= i < |states| ensures ss[i] == states[i] { }
    SortMembers(q.predicted, StrLess);
    PredictAllSameSymbols(newrules, q.predicted, Sort(q.predicted, StrLess));
  }

  lemma CompanionEdges(newrules: NewRules, edges: Edges, states: seq<State>, nks: State, q: Pass)
    requires EdgesOk(newrules, edges, states) && |states| > 0 && nks.items == q.nkitems
    requires EdgesAdded(|states|, map[], q.nkitems, q.edges)
    ensures EdgesOk(newrules, edges + q.edges, states + [nks])
  {
    MergeAdded(|states|, edges, q.nkitems, q.edges);
    KernelEdges(newrules, edges, states, nks, edges + q.edges);
  }

  /** Placeholders computed apart and then merged in: `self.edges.update(edges)`. */
  lemma MergeAdded(x: nat, edges0: Edges, visited: seq<Item>, edges: Edges)
    requires EdgesAdded(x, map[], visited, edges) && forall key :: key in edges0 ==> key.0 != x
    ensures EdgesAdded(x, edges0, visited, edges0 + edges)
  {
  }

  lemma CompanionExtends(m: Machine, ks: State, nks: State, pedges: Edges, qedges: Edges, cores: map<CoreKey, nat>)
    requires forall key :: key in m.edges ==> key in pedges && pedges[key] == m.edges[key]
    requires forall key :: key in pedges && key.0 < |m.states| ==> key in m.edges
    requires forall key :: key in qedges ==> key.0 == |m.states| + 1
    requires forall key :: key in m.edges ==> key.0 < |m.states|
    requires forall key :: key in m.cores ==> key in cores && cores[key] == m.cores[key]
    ensures Extends(m, Machine(m.states + [ks, nks], pedges[(|m.states|, Eps) := Some(|m.states| + 1)] + qedges, cores))
  {
    assert m.states <= m.states + [ks, nks];
  }

  /** `self.edges[(k, None)] = ...` followed by `self.edges.update(edges)`, when `edges` has no such key. */
  lemma UpdateThenMerge<K, V>(a: map<K, V>, b: map<K, V>, key: K, v: V)
    requires key !in b
    ensures a[key := v] + b == (a + b)[key := v]
  {
  }

  /** The kernel state with the kernel pass's edges and its memoised core. */
  lemma KernelCommitted(newrules: NewRules, m: Machine, kitems: seq<Item>, p: Pass)
    requires Good(newrules, m) && |m.states| > 0 && KernelKey(kitems) !in m.cores
    requires Collected(newrules, kitems, p.complete, p.t) && EdgesAdded(|m.states|, m.edges, kitems, p.edges)
    ensures var m1 := KernelMachine(m, kitems, p);
      Good(newrules, m1) && Extends(m, m1) && (|m.states|, Eps) !in m1.edges
  {
    var k := |m.states|;
    var ss := m.states + [State(k, kitems, p.complete, p.t)];
    KernelStates(newrules, m.states, m.cores, kitems, p);
    KernelEdges(newrules, m.edges, m.states, State(k, kitems, p.complete, p.t), p.edges);
  }

  /** The kernel state keeps the states numbered and consistent and its core memoised. */
  lemma KernelStates(newrules: NewRules, states: seq<State>, cores: map<CoreKey, nat>, kitems: seq<Item>, p: Pass)
    requires StatesOk(newrules, states) && CoresOk(newrules, cores, states) && |states| > 0
    requires Collected(newrules, kitems, p.complete, p.t)
    ensures StatesOk(newrules, states + [State(|states|, kitems, p.complete, p.t)])
    ensures CoresOk(newrules, cores[KernelKey(kitems) := |states|], states + [State(|states|, kitems, p.complete, p.t)])
  {
    var ss := states + [State(|states|, kitems, p.complete, p.t)];
    forall i | 0 <= i < |states| ensures ss[i] == states[i] { }
  }

  /** The kernel pass's placeholder edges keep the edge invariant once the kernel state is added. */
  lemma KernelEdges(newrules: NewRules, edges: Edges, states: seq<State>, ks: State, pedges: Edges)
    requires EdgesOk(newrules, edges, states) && |states| > 0
    requires EdgesAdded(|states|, edges, ks.items, pedges)
    ensures EdgesOk(newrules, pedges, states + [ks])
    ensures forall key :: key in edges ==> key in pedges && pedges[key] == edges[key]
    ensures forall key :: key in pedges && key.0 < |states| ==> key in edges
    ensures (|states|, Eps) !in pedges
  {
    var k := |states|;
    var ss := states + [ks];
    forall i | 0 <= i < k ensures ss[i] == states[i] { }
    forall i, s | 0 < i < |ss| ensures (i, On(s)) in pedges <==> s in NextSymbols(ss[i].items) {
      EdgeKeysMember(k, NextSymbols(ks.items), s);
    }
  }

  /** An ε-edge of a new state to a state holding the closure of its kernel. */
  lemma EpsEdge(newrules: NewRules, edges: Edges, states: seq<State>, k: nat, target: nat)
    requires EdgesOk(newrules, edges, states) && 0 < k < |states| && target < |states| && (k, Eps) !in edges
    requires ClosureOf(newrules, states[k].items, states[target].items)
    ensures EdgesOk(newrules, edges[(k, Eps) := Some(target)], states)
  {
  }

  /** An ε-edge of a new state to a state holding the closure of its kernel. */
  lemma AddEps(newrules: NewRules, m0: Machine, m: Machine, k: nat, target: nat)
    requires Good(newrules, m) && Extends(m0, m) && |m0.states| <= k < |m.states| && 0 < k
    requires target < |m.states| && (k, Eps) !in m.edges
    requires ClosureOf(newrules, m.states[k].items, m.states[target].items)
    ensures Good(newrules, m.(edges := m.edges[(k, Eps) := Some(target)]))
    ensures Extends(m0, m.(edges := m.edges[(k, Eps) := Some(target)]))
  {
    var e := m.edges[(k, Eps) := Some(target)];
    assert EdgesOk(newrules, e, m.states);
  }

  // ---------------------------------------------------------------------
  // goto, gotoT, gotoST
  // ---------------------------------------------------------------------

  /**
   * `goto(state, sym)`: `None` when the state has no edge on `sym`;
   * otherwise the edge's target, built by `makeState` (and stored) the
   * first time only.
   */
  method Goto(newrules: NewRules, m: Machine, state: nat, sym: Label) returns (m': Machine, rv: Option<nat>)
    requires Good(newrules, m)
    ensures Good(newrules, m') && Extends(m, m')
    ensures (state, sym) !in m.edges ==> m' == m && rv == None
    ensures (state, sym) in m.edges ==>
      rv.Some? && rv.value < |m'.states| && (state, sym) in m'.edges && m'.edges[(state, sym)] == rv
    ensures (state, sym) in m.edges && m.edges[(state, sym)].Some? ==> m' == m && rv == m.edges[(state, sym)]
  {
    var key := (state, sym);
    if key !in m.edges {
      return m, None;
    }
    rv := m.edges[key];
    if rv.Some? {
      return m, rv;
    }
    assert sym.On?;
    var m1, k := MakeState(newrules, m, state, sym.sym);
    m' := m1.(edges := m1.edges[key := Some(k)]);
    rv := Some(k);
    StoreEdge(newrules, m, m1, key, k);
  }

  /** Storing the target `makeState` built for a placeholder edge. */
  lemma StoreEdge(newrules: NewRules, m: Machine, m1: Machine, key: (nat, Label), k: nat)
    requires Good(newrules, m) && Good(newrules, m1) && Extends(m, m1)
    requires key in m.edges && m.edges[key] == None && key.1.On?
    requires k < |m1.states| && m1.states[k].items == KernelOf(m.states[key.0].items, key.1.sym)
    ensures Good(newrules, m1.(edges := m1.edges[key := Some(k)]))
    ensures Extends(m, m1.(edges := m1.edges[key := Some(k)]))
  {
    assert m1.states[key.0] == m.states[key.0];
    EdgeBuilt(newrules, m1.edges, m1.states, key, k);
    ExtendsBuilt(m, m1, key, k);
  }

  /** Giving a placeholder edge the state with its kernel keeps the edge table consistent. */
  lemma EdgeBuilt(newrules: NewRules, edges: Edges, states: seq<State>, key: (nat, Label), k: nat)
    requires EdgesOk(newrules, edges, states) && key in edges && key.1.On?
    requires k < |states| && states[k].items == KernelOf(states[key.0].items, key.1.sym)
    ensures EdgesOk(newrules, edges[key := Some(k)], states)
  {
  }

  /** Building a placeholder edge of `m` in a later machine still extends `m`. */
  lemma ExtendsBuilt(m: Machine, m1: Machine, key: (nat, Label), k: nat)
    requires Extends(m, m1) && key in m.edges && m.edges[key] == None
    ensures Extends(m, m1.(edges := m1.edges[key := Some(k)]))
  {
  }

  /** `gotoT(state, t)`: the one-element list `[goto(state, t)]`. */
  method GotoT(newrules: NewRules, m: Machine, state: nat, t: Symbol) returns (m': Machine, rv: seq<Option<nat>>)
    requires Good(newrules, m)
    ensures Good(newrules, m') && Extends(m, m')
    ensures |rv| == 1 && (rv[0].Some? <==> (state, On(t)) in m.edges) && (rv[0].None? ==> m' == m)
    ensures rv[0].Some? ==> rv[0].value < |m'.states| && (state, On(t)) in m'.edges && m'.edges[(state, On(t))] == rv[0]
  {
    var x;
    m', x := Goto(newrules, m, state, On(t));
    rv := [x];
  }

  /**
   * `gotoST(state, st)`: `goto(state, t)` for each terminal `t` of the
   * state that the token equals (at most one, the terminals being
   * distinct); a state that does not exist raises `KeyError`.
   */
  method GotoST(newrules: NewRules, m: Machine, state: nat, st: Option<Token>) returns (m': Machine, rv: Result<seq<Option<nat>>, ParseError>)
    requires Good(newrules, m)
    ensures Good(newrules, m') && Extends(m, m')
    ensures state >= |m.states| ==> m' == m && rv == Err(Crash("KeyError"))
    ensures state < |m.states| ==>
      rv.Ok? && |rv.value| == (if st.Some? && TokenText(st.value) in m.states[state].t then 1 else 0)
    ensures rv.Ok? ==> Hits(m', state, st, rv.value)
  {
    if state >= |m.states| {
      return m, Err(Crash("KeyError"));
    }
    var ts := m.states[state].t;
    TerminalsDistinct(newrules, m, state);
    m' := m;
    var out: seq<Option<nat>> := [];
    for j := 0 to |ts|
      invariant Good(newrules, m') && Extends(m, m') && m'.states[state] == m.states[state]
      invariant |out| == (if st.Some? && TokenText(st.value) in ts[..j] then 1 else 0)
      invariant Hits(m', state, st, out)
    {
      assert ts[..j + 1] == ts[..j] + [ts[j]];
      assert ts[j] !in ts[..j];
      var m1, hit := GotoIfEqual(newrules, m', state, st, ts[j]);
      ExtendsTrans(m, m', m1);
      m', out := m1, out + hit;
    }
    assert ts[..|ts|] == ts;
    rv := Ok(out);
  }

  /**
   * The goto list of `gotoST` has at most one target, on the terminal the
   * token equals, and that target is the edge's.
   */
  ghost predicate Hits(m: Machine, state: nat, st: Option<Token>, out: seq<Option<nat>>) {
    |out| == 1 ==>
      && st.Some? && out[0].Some? && out[0].value < |m.states|
      && (state, On(TokenText(st.value))) in m.edges && m.edges[(state, On(TokenText(st.value)))] == out[0]
  }

  /** One terminal `t` of `gotoST`'s list: `goto(state, t)` if the token equals it. */
  method GotoIfEqual(newrules: NewRules, m: Machine, state: nat, st: Option<Token>, t: Symbol)
    returns (m': Machine, hit: seq<Option<nat>>)
    requires Good(newrules, m) && state < |m.states| && t in m.states[state].t
    ensures Good(newrules, m') && Extends(m, m') && m'.states[state] == m.states[state]
    ensures |hit| == (if st.Some? && TokenText(st.value) == t then 1 else 0)
    ensures hit == [] ==> m' == m
    ensures Hits(m', state, st, hit)
  {
    if st.Some? && TokenText(st.value) == t {
      TerminalEdge(newrules, m, state, t);
      var x;
      m', x := Goto(newrules, m, state, On(t));
      hit := [x];
    } else {
      m', hit := m, [];
    }
  }

  /** A state's terminals are distinct. */
  lemma TerminalsDistinct(newrules: NewRules, m: Machine, state: nat)
    requires Good(newrules, m) && state < |m.states|
    ensures forall a, b :: 0 <= a < b < |m.states[state].t| ==> m.states[state].t[a] != m.states[state].t[b]
  {
    if state > 0 { DedupDistinct(NextTerminals(newrules, m.states[state].items)); }
  }

  /** Each terminal of a state has its edge. */
  lemma TerminalEdge(newrules: NewRules, m: Machine, state: nat, t: Symbol)
    requires Good(newrules, m) && state < |m.states| && t in m.states[state].t
    ensures (state, On(t)) in m.edges
  {
    var items := m.states[state].items;
    DedupMembers(NextTerminals(newrules, items));
    NextTerminalsMembers(newrules, items);
  }
}
