/**
 * The Earley sets of `GenericParser.parse`: `add`, which puts an item in a
 * set and records its link, and `makeSet`, which scans token `i` from the
 * items of set `i` into set `i + 1` and closes set `i` under completion,
 * growing the automaton through `goto`, `gotoT` and `gotoST` as it goes.
 */
module Earley {
  import opened Wrappers
  import opened Grammar
  import opened States
  import opened Values
  import opened Forest
  import opened Automata

  /** How a call of `makeSet` (or of the loop of `parse`) ends. */
  datatype Outcome = Done | Failed(error: ParseError)

  /** `ttype` chooses the scan: `gotoT(state, ttype)`, or, without a type, `gotoST(state, token)`. */
  datatype Scan = ByType(t: Symbol) | ByToken(token: Option<Token>)

  /** `ttype = token is not None and self.typestring(token) or None`: an empty type counts as none. */
  function ScanOf(token: Option<Token>, typestring: Token -> Option<Symbol>): Scan {
    if token.Some? && typestring(token.value).Some? && typestring(token.value).value != "" then
      ByType(typestring(token.value).value)
    else
      ByToken(token)
  }

  ghost predicate Distinct(s: seq<EItem>) {
    forall a, b :: 0 <= a < b < |s| ==> s[a] != s[b]
  }

  /**
   * Earley set `j`: no item twice, every parent at or before `j`, and every
   * item that did not start at `j` has its list of links.
   */
  ghost predicate SetOk(X: seq<EItem>, j: nat, links: Links) {
    && Distinct(X)
    && (forall it :: it in X ==> it.parent <= j)
    && (forall it :: it in X && it.parent != j ==> Ptr(it, j) in links)
  }

  // ---------------------------------------------------------------------
  // add
  // ---------------------------------------------------------------------

  /**
   * `add(set, item, i, predecessor, causal)`: the item is appended unless
   * it is already there; with a predecessor, the pair is appended to the
   * links of `(item, i)`, a list started afresh for a new item. An item
   * already in the set without links would raise `KeyError`; `SetOk`
   * rules that out for every call `makeSet` makes.
   */
  method AddItem(links: Links, s: seq<EItem>, item: EItem, i: nat, link: Option<Link>) returns (s': seq<EItem>, links': Links)
    requires link.Some? && item in s ==> Ptr(item, i) in links
    ensures s' == if item in s then s else s + [item]
    ensures link.None? ==> links' == links
    ensures link.Some? ==>
      links' == links[Ptr(item, i) := (if item in s then links[Ptr(item, i)] else []) + [link.value]]
    ensures Distinct(s) ==> Distinct(s')
    ensures links.Keys <= links'.Keys
    ensures forall key :: key in links && (key != Ptr(item, i) || item in s) ==> links[key] <= links'[key]
  {
    if link.None? {
      if item !in s {
        s' := s + [item];
      } else {
        s' := s;
      }
      links' := links;
    } else {
      var key := Ptr(item, i);
      links' := links;
      s' := s;
      if item !in s {
        links' := links'[key := []];
        s' := s' + [item];
      }
      links' := links'[key := links'[key] + [link.value]];
    }
  }

  // ---------------------------------------------------------------------
  // Where the items of a set come from.
  // ---------------------------------------------------------------------

  /**
   * Why `makeSet` may put an item in a set: the transition of an item's
   * state over a symbol, the scan of an item, the transition over the lhs
   * of a rule from one of a list of parent items, or the completion of an
   * item, whose parent set is given directly or as one of the older sets.
   */
  datatype Reason =
    | Stepped(from: EItem, sym: Symbol)
    | Scanned(from: EItem, scan: Scan)
    | ByRule(parents: seq<EItem>, rule: Rule)
    | Completes(parents: seq<EItem>, it: EItem)
    | Completing(older: seq<seq<EItem>>, it: EItem)

  /** `x` is `(goto(from.state, sym), from.parent)` over the edges of `m`. */
  ghost predicate StepTo(m: Machine, from: EItem, sym: Symbol, x: EItem) {
    x.parent == from.parent && (from.state, On(sym)) in m.edges && m.edges[(from.state, On(sym))] == Some(x.state)
  }

  /** `x` is the transition over the lhs of `rule` from some item of `parents`. */
  ghost predicate RuleTo(m: Machine, parents: seq<EItem>, rule: Rule, x: EItem) {
    exists pit :: pit in parents && StepTo(m, pit, rule.lhs, x)
  }

  /** `x` is what completing `it` by one of the rules its state completes gives with `parents`. */
  ghost predicate CompletesTo(m: Machine, parents: seq<EItem>, it: EItem, x: EItem) {
    it.state < |m.states| && exists rule :: rule in m.states[it.state].complete && RuleTo(m, parents, rule, x)
  }

  ghost predicate Justifies(m: Machine, w: Reason, x: EItem) {
    match w
    case Stepped(from, sym) => StepTo(m, from, sym, x)
    case Scanned(from, scan) =>
      ScanSymbol(m, from.state, scan).Some? && StepTo(m, from, ScanSymbol(m, from.state, scan).value, x)
    case ByRule(parents, rule) => RuleTo(m, parents, rule, x)
    case Completes(parents, it) => CompletesTo(m, parents, it, x)
    case Completing(older, it) => it.parent < |older| && CompletesTo(m, older[it.parent], it, x)
  }

  /** `X[n]` is the ε-successor, with parent `at`, of an item before it in `X`. */
  ghost predicate EpsBefore(m: Machine, X: seq<EItem>, n: nat, at: nat)
    requires n < |X|
  {
    X[n].parent == at && exists p :: 0 <= p < n && (X[p].state, Eps) in m.edges && m.edges[(X[p].state, Eps)] == Some(X[n].state)
  }

  /** Every item of `X` from position `len` on is justified by `w` or is an ε-successor of an earlier one. */
  ghost predicate NewOnly(m: Machine, w: Reason, at: nat, len: nat, X: seq<EItem>) {
    forall n :: len <= n < |X| ==> Justifies(m, w, X[n]) || EpsBefore(m, X, n, at)
  }

  /** A grown automaton keeps every justification. */
  lemma JustifiesMono(m: Machine, m': Machine, w: Reason, x: EItem)
    requires Extends(m, m') && Justifies(m, w, x)
    ensures Justifies(m', w, x)
  {
    match w
    case Stepped(from, sym) =>
    case Scanned(from, scan) =>
      if scan.ByToken? {
        assert m'.states[from.state] == m.states[from.state];
      }
    case ByRule(parents, rule) =>
      RuleToMono(m, m', parents, rule, x);
    case Completes(parents, it) =>
      CompletesToMono(m, m', parents, it, x);
    case Completing(older, it) =>
      CompletesToMono(m, m', older[it.parent], it, x);
  }

  lemma RuleToMono(m: Machine, m': Machine, parents: seq<EItem>, rule: Rule, x: EItem)
    requires Extends(m, m') && RuleTo(m, parents, rule, x)
    ensures RuleTo(m', parents, rule, x)
  {
    var pit :| pit in parents && StepTo(m, pit, rule.lhs, x);
    assert StepTo(m', pit, rule.lhs, x);
  }

  lemma CompletesToMono(m: Machine, m': Machine, parents: seq<EItem>, it: EItem, x: EItem)
    requires Extends(m, m') && CompletesTo(m, parents, it, x)
    ensures CompletesTo(m', parents, it, x)
  {
    var rule :| rule in m.states[it.state].complete && RuleTo(m, parents, rule, x);
    RuleToMono(m, m', parents, rule, x);
    assert m'.states[it.state] == m.states[it.state];
  }

  /** A grown automaton and a set grown at its end keep an ε-successor. */
  lemma EpsBeforeMono(m: Machine, m': Machine, X: seq<EItem>, X': seq<EItem>, n: nat, at: nat)
    requires Extends(m, m') && X <= X' && n < |X| && EpsBefore(m, X, n, at)
    ensures EpsBefore(m', X', n, at)
  {
    var p :| 0 <= p < n && (X[p].state, Eps) in m.edges && m.edges[(X[p].state, Eps)] == Some(X[n].state);
    assert X'[p] == X[p] && X'[n] == X[n];
  }

  /** Two stretches of new items, justified by `w`, make one. */
  lemma NewOnlyGrow(m: Machine, m': Machine, w: Reason, at: nat, len: nat, X: seq<EItem>, X': seq<EItem>)
    requires Extends(m, m') && X <= X' && NewOnly(m, w, at, len, X) && NewOnly(m', w, at, |X|, X')
    ensures NewOnly(m', w, at, len, X')
  {
    forall n | len <= n < |X| ensures Justifies(m', w, X'[n]) || EpsBefore(m', X', n, at) {
      assert X'[n] == X[n];
      if Justifies(m, w, X[n]) {
        JustifiesMono(m, m', w, X[n]);
      } else {
        EpsBeforeMono(m, m', X, X', n, at);
      }
    }
  }

  /** New items justified by `w` are justified by any reason `w` implies. */
  lemma NewOnlyWeaken(m: Machine, w: Reason, w': Reason, at: nat, len: nat, X: seq<EItem>)
    requires NewOnly(m, w, at, len, X) && forall x :: Justifies(m, w, x) ==> Justifies(m, w', x)
    ensures NewOnly(m, w', at, len, X)
  {
  }

  // ---------------------------------------------------------------------
  // What makeSet records in the links.
  // ---------------------------------------------------------------------

  /** `add` with a predecessor, for an item whose key has a list exactly when it is in the set. */
  function Append(links: Links, key: Ptr, l: Link): Links {
    links[key := (if key in links then links[key] else []) + [l]]
  }

  /** Every list of links of set `at` belongs to an item of `X`: `add` starts a list only when it appends the item. */
  ghost predicate Owned(links: Links, X: seq<EItem>, at: nat) {
    forall key :: key in links && key.i == at ==> key.item in X
  }

  /**
   * Where `makeSet` records a link: scanning the item `it` of set `i`;
   * completing `it` by `rule` against the items of its parent set
   * `parents`, or by any rule its state completes; completing `it` of
   * set `|older|` against its parent set; processing `it` of set
   * `|older|`; processing any item of the set `cur` at `|older|`.
   */
  datatype Via =
    | ScanVia(it: EItem, i: nat, scan: Scan)
    | RuleVia(parents: seq<EItem>, it: EItem, i: nat, rule: Rule)
    | ItemVia(parents: seq<EItem>, it: EItem, i: nat)
    | CompletingVia(older: seq<seq<EItem>>, it: EItem)
    | StepVia(older: seq<seq<EItem>>, it: EItem, scan: Scan)
    | SetVia(older: seq<seq<EItem>>, cur: seq<EItem>, scan: Scan)

  /** `ptr = (it, i)` with no cause, under the key in set `i + 1` of what scanning `it` gives. */
  ghost predicate ScanLink(m: Machine, it: EItem, i: nat, scan: Scan, key: Ptr, l: Link) {
    key.i == i + 1 && l == Link(Ptr(it, i), None) && Justifies(m, Scanned(it, scan), key.item)
  }

  /**
   * `pptr = (pitem, parent)` for an item `pitem` of the parent set and
   * `why = (it, i, rule)`, under the key in set `i` of `goto(pstate, lhs)`
   * with `pitem`'s parent.
   */
  ghost predicate RuleLink(m: Machine, parents: seq<EItem>, it: EItem, i: nat, rule: Rule, key: Ptr, l: Link) {
    && key.i == i && l.cause == Some(Cause(it, i, rule)) && l.pred.i == it.parent
    && l.pred.item in parents && StepTo(m, l.pred.item, rule.lhs, key.item)
  }

  /** A `RuleLink` for a rule the state of `it` completes. */
  ghost predicate ItemLink(m: Machine, parents: seq<EItem>, it: EItem, i: nat, key: Ptr, l: Link) {
    && it.state < |m.states| && l.cause.Some? && l.cause.value.rule in m.states[it.state].complete
    && RuleLink(m, parents, it, i, l.cause.value.rule, key, l)
  }

  /** A completion link of `it` of set `|older|` against set `it.parent` of `older`. */
  ghost predicate CompletingLink(m: Machine, older: seq<seq<EItem>>, it: EItem, key: Ptr, l: Link) {
    it.parent < |older| && ItemLink(m, older[it.parent], it, |older|, key, l)
  }

  /** The scan link of `it`, or one of its completion links. */
  ghost predicate StepLink(m: Machine, older: seq<seq<EItem>>, it: EItem, scan: Scan, key: Ptr, l: Link) {
    ScanLink(m, it, |older|, scan, key, l) || CompletingLink(m, older, it, key, l)
  }

  /** A `StepLink` of an item of `cur`, which the link itself names. */
  ghost predicate SetLink(m: Machine, older: seq<seq<EItem>>, cur: seq<EItem>, scan: Scan, key: Ptr, l: Link) {
    || (l.pred.item in cur && ScanLink(m, l.pred.item, |older|, scan, key, l))
    || (l.cause.Some? && l.cause.value.item in cur && CompletingLink(m, older, l.cause.value.item, key, l))
  }

  ghost predicate LinkVia(m: Machine, v: Via, key: Ptr, l: Link) {
    match v
    case ScanVia(it, i, scan) => ScanLink(m, it, i, scan, key, l)
    case RuleVia(parents, it, i, rule) => RuleLink(m, parents, it, i, rule, key, l)
    case ItemVia(parents, it, i) => ItemLink(m, parents, it, i, key, l)
    case CompletingVia(older, it) => CompletingLink(m, older, it, key, l)
    case StepVia(older, it, scan) => StepLink(m, older, it, scan, key, l)
    case SetVia(older, cur, scan) => SetLink(m, older, cur, scan, key, l)
  }

  /**
   * From `links` to `links'` the lists only grow: every old list is kept
   * as a prefix, every new one is non-empty, and every entry added is one
   * that `v` records.
   */
  ghost predicate Grown(m: Machine, v: Via, links: Links, links': Links) {
    && links.Keys <= links'.Keys
    && forall key :: key in links' ==> GrownAt(m, v, links, links', key)
  }

  ghost predicate GrownAt(m: Machine, v: Via, links: Links, links': Links, key: Ptr)
    requires key in links'
  {
    var before := if key in links then links[key] else [];
    && before <= links'[key] && (key !in links ==> links'[key] != [])
    && forall n :: |before| <= n < |links'[key]| ==> LinkVia(m, v, key, links'[key][n])
  }

  lemma GrownRefl(m: Machine, v: Via, links: Links)
    ensures Grown(m, v, links, links)
  {
    forall key | key in links ensures GrownAt(m, v, links, links, key) {
    }
  }

  lemma GrownTrans(m: Machine, v: Via, a: Links, b: Links, c: Links)
    requires Grown(m, v, a, b) && Grown(m, v, b, c)
    ensures Grown(m, v, a, c)
  {
    forall key | key in c ensures GrownAt(m, v, a, c, key) {
      assert GrownAt(m, v, b, c, key);
      if key in b {
        assert GrownAt(m, v, a, b, key);
        var before := if key in a then a[key] else [];
        forall n | |before| <= n < |c[key]| ensures LinkVia(m, v, key, c[key][n]) {
          if n < |b[key]| {
            assert c[key][n] == b[key][n];
          }
        }
      }
    }
  }

  /** One more entry that `v` records. */
  lemma GrownAppend(m: Machine, v: Via, a: Links, b: Links, key: Ptr, l: Link)
    requires Grown(m, v, a, b) && LinkVia(m, v, key, l)
    ensures Grown(m, v, a, Append(b, key, l))
  {
    var c := Append(b, key, l);
    forall k | k in c ensures GrownAt(m, v, a, c, k) {
      if k != key {
        assert GrownAt(m, v, a, b, k);
      } else if key in b {
        assert GrownAt(m, v, a, b, k);
        assert c[key] == b[key] + [l];
      }
    }
  }

  /** What `v` records under one automaton, `v'` records under another. */
  lemma GrownLift(m: Machine, m': Machine, v: Via, v': Via, a: Links, b: Links)
    requires Grown(m, v, a, b) && forall key, l :: LinkVia(m, v, key, l) ==> LinkVia(m', v', key, l)
    ensures Grown(m', v', a, b)
  {
    forall key | key in b ensures GrownAt(m', v', a, b, key) {
      assert GrownAt(m, v, a, b, key);
    }
  }

  /** A grown automaton keeps every link `v` records. */
  lemma LinkViaMono(m: Machine, m': Machine, v: Via, key: Ptr, l: Link)
    requires Extends(m, m') && LinkVia(m, v, key, l)
    ensures LinkVia(m', v, key, l)
  {
    match v
    case ScanVia(it, i, scan) =>
      JustifiesMono(m, m', Scanned(it, scan), key.item);
    case RuleVia(parents, it, i, rule) =>
    case ItemVia(parents, it, i) =>
      assert m'.states[it.state] == m.states[it.state];
    case CompletingVia(older, it) =>
      assert m'.states[it.state] == m.states[it.state];
    case StepVia(older, it, scan) =>
      if ScanLink(m, it, |older|, scan, key, l) {
        JustifiesMono(m, m', Scanned(it, scan), key.item);
      } else {
        assert m'.states[it.state] == m.states[it.state];
      }
    case SetVia(older, cur, scan) =>
      if l.pred.item in cur && ScanLink(m, l.pred.item, |older|, scan, key, l) {
        JustifiesMono(m, m', Scanned(l.pred.item, scan), key.item);
      } else {
        assert m'.states[l.cause.value.item.state] == m.states[l.cause.value.item.state];
      }
  }

  lemma GrownMono(m: Machine, m': Machine, v: Via, a: Links, b: Links)
    requires Extends(m, m') && Grown(m, v, a, b)
    ensures Grown(m', v, a, b)
  {
    forall key, l | LinkVia(m, v, key, l) ensures LinkVia(m', v, key, l) {
      LinkViaMono(m, m', v, key, l);
    }
    GrownLift(m, m', v, v, a, b);
  }

  /** A list `v` never records into is left as it was. */
  lemma GrownElsewhere(m: Machine, v: Via, a: Links, b: Links, key: Ptr)
    requires Grown(m, v, a, b) && key in b && forall l :: !LinkVia(m, v, key, l)
    ensures key in a && b[key] == a[key]
  {
    assert GrownAt(m, v, a, b, key);
    var before := if key in a then a[key] else [];
    assert |before| < |b[key]| ==> LinkVia(m, v, key, EntryAt(b[key], |before|));
  }

  /** Entry `n` of a list of links, or a placeholder past its end. */
  function EntryAt(ls: seq<Link>, n: nat): Link {
    if n < |ls| then ls[n] else Link(Ptr(EItem(0, 0), 0), None)
  }

  /** The lists of a set `v` never records into keep belonging to its items. */
  lemma OwnedElsewhere(m: Machine, v: Via, a: Links, b: Links, X: seq<EItem>, at: nat)
    requires Grown(m, v, a, b) && Owned(a, X, at) && forall key: Ptr, l :: key.i == at ==> !LinkVia(m, v, key, l)
    ensures Owned(b, X, at) && forall key :: key in b && key.i == at ==> key in a && b[key] == a[key]
  {
    forall key | key in b && key.i == at ensures key in a && b[key] == a[key] {
      GrownElsewhere(m, v, a, b, key);
    }
  }

  /**
   * Entering the target `k` of a transition: `add(X, (k, parent), at,
   * pred, why)`, then `add(X, (nk, at))` for its ε-successor `nk =
   * goto(k, None)` if it has one. An ε-edge is built together with its
   * source state, so this `goto` only reads it.
   */
  method Enter(m: Machine, links: Links, X: seq<EItem>, k: nat, parent: nat, at: nat, link: Link, ghost w: Reason)
    returns (X': seq<EItem>, links': Links)
    requires k < |m.states| && parent < at && SetOk(X, at, links)
    requires (k, Eps) in m.edges ==> m.edges[(k, Eps)].Some? && m.edges[(k, Eps)].value < |m.states|
    requires Justifies(m, w, EItem(k, parent)) && Owned(links, X, at)
    ensures SetOk(X', at, links') && X <= X' && links.Keys <= links'.Keys
    ensures Entered(m, k, parent, at, X')
    ensures forall x :: x in X' ==> x in X || x.state < |m.states|
    ensures NewOnly(m, w, at, |X|, X')
    ensures links' == Append(links, Ptr(EItem(k, parent), at), link) && Owned(links', X', at)
  {
    assert Ptr(EItem(k, parent), at) in links <==> EItem(k, parent) in X;
    var X1, links1 := AddItem(links, X, EItem(k, parent), at, Some(link));
    var nk := if (k, Eps) in m.edges then m.edges[(k, Eps)] else None;
    X', links' := X1, links1;
    if nk.Some? {
      X', links' := AddItem(links1, X1, EItem(nk.value, at), at, None);
      if |X'| > |X1| {
        ghost var p :| 0 <= p < |X1| && X1[p] == EItem(k, parent);
        assert X'[p] == X1[p];
        assert EpsBefore(m, X', |X1|, at);
      }
    }
  }

  // ---------------------------------------------------------------------
  // What makeSet guarantees of an item once it has been processed.
  // ---------------------------------------------------------------------

  /**
   * The transition of state `s` on `sym`, if there is one, has been taken:
   * its target, with parent `parent`, is in `X`, and so is the target's
   * ε-successor, with parent `at`.
   */
  ghost predicate Follows(m: Machine, s: nat, sym: Symbol, parent: nat, at: nat, X: seq<EItem>) {
    (s, On(sym)) in m.edges ==> m.edges[(s, On(sym))].Some? && Entered(m, m.edges[(s, On(sym))].value, parent, at, X)
  }

  /** State `k` is in `X` with parent `parent`, and its ε-successor, if any, with parent `at`. */
  ghost predicate Entered(m: Machine, k: nat, parent: nat, at: nat, X: seq<EItem>) {
    && EItem(k, parent) in X
    && ((k, Eps) in m.edges ==> m.edges[(k, Eps)].Some? && EItem(m.edges[(k, Eps)].value, at) in X)
  }

  /**
   * The symbol the scan of state `s` follows: the token's type, or the
   * token itself when it equals one of the state's terminals.
   */
  ghost function ScanSymbol(m: Machine, s: nat, scan: Scan): Option<Symbol> {
    match scan
    case ByType(t) => Some(t)
    case ByToken(tok) =>
      if tok.Some? && s < |m.states| && TokenText(tok.value) in m.states[s].t then Some(TokenText(tok.value)) else None
  }

  /**
   * The scan of `it` from set `at - 1` into `next` has been done (`gotoST`
   * raises `KeyError` for a state that does not exist).
   */
  ghost predicate ScanDone(m: Machine, it: EItem, scan: Scan, at: nat, next: seq<EItem>) {
    && (scan.ByToken? ==> it.state < |m.states|)
    && (ScanSymbol(m, it.state, scan).Some? ==> Follows(m, it.state, ScanSymbol(m, it.state, scan).value, it.parent, at, next))
  }

  /**
   * The items of `X`, stale ones (`skip`) apart, have states that exist.
   * The stale items are those of the first set whose state had not been
   * built when `parse` began: `(2, 0)` for a start symbol without rules.
   */
  ghost predicate InRange(m: Machine, X: seq<EItem>, skip: seq<EItem>) {
    forall x :: x in X && x !in skip ==> x.state < |m.states|
  }

  ghost predicate AllInRange(m: Machine, sets: seq<seq<EItem>>, skip: seq<EItem>) {
    forall k :: 0 <= k < |sets| ==> InRange(m, sets[k], skip)
  }

  /**
   * For each rule of `rules` and each item of the parent set `older` but
   * the stale ones, the transition on the rule's lhs has been taken into
   * `cur`, with the parent item's parent.
   */
  ghost predicate FollowsAll(m: Machine, rules: seq<Rule>, older: seq<EItem>, skip: seq<EItem>, i: nat, cur: seq<EItem>) {
    forall r, pit :: r in rules && pit in older && pit !in skip ==> Follows(m, pit.state, r.lhs, pit.parent, i, cur)
  }

  /**
   * The completion of `it` in set `i = |older|` has been done: nothing to do
   * for an item that started here, otherwise for every rule the item's
   * state completes.
   */
  ghost predicate CompleteDone(m: Machine, older: seq<seq<EItem>>, skip: seq<EItem>, it: EItem, i: nat, cur: seq<EItem>) {
    it.parent == i ||
    (&& it.parent < |older| && it.state < |m.states|
     && FollowsAll(m, m.states[it.state].complete, older[it.parent], skip, i, cur))
  }

  /** What the monotonicity lemmas need of an automaton: edge targets exist and ε-edges are built. */
  ghost predicate TargetsExist(m: Machine) {
    && (forall key :: key in m.edges && m.edges[key].Some? ==> m.edges[key].value < |m.states|)
    && (forall i :: (i, Eps) in m.edges ==> m.edges[(i, Eps)].Some?)
  }

  /** Growing the automaton and the sets keeps a transition taken. */
  lemma FollowsMono(newrules: NewRules, m: Machine, m': Machine, s: nat, sym: Symbol, parent: nat, at: nat,
                    X: seq<EItem>, X': seq<EItem>)
    requires TargetsExist(m) && Extends(m, m') && s < |m.states|
    requires (forall x :: x in X ==> x in X') && Follows(m, s, sym, parent, at, X)
    ensures Follows(m', s, sym, parent, at, X')
  {
    if (s, On(sym)) in m'.edges {
      var k := m.edges[(s, On(sym))].value;
      assert k < |m.states|;
    }
  }

  lemma FollowsAllMono(newrules: NewRules, m: Machine, m': Machine, rules: seq<Rule>, older: seq<EItem>, skip: seq<EItem>,
                       i: nat, cur: seq<EItem>, cur': seq<EItem>)
    requires TargetsExist(m) && Extends(m, m') && InRange(m, older, skip)
    requires (forall x :: x in cur ==> x in cur') && FollowsAll(m, rules, older, skip, i, cur)
    ensures FollowsAll(m', rules, older, skip, i, cur')
  {
    forall r, pit | r in rules && pit in older && pit !in skip
      ensures Follows(m', pit.state, r.lhs, pit.parent, i, cur')
    {
      FollowsMono(newrules, m, m', pit.state, r.lhs, pit.parent, i, cur, cur');
    }
  }

  /** `FollowsAll` over more rules. */
  lemma FollowsAllRules(m: Machine, rules: seq<Rule>, a: nat, older: seq<EItem>, skip: seq<EItem>, i: nat, cur: seq<EItem>)
    requires a < |rules|
    requires FollowsAll(m, rules[..a], older, skip, i, cur) && FollowsAll(m, [rules[a]], older, skip, i, cur)
    ensures FollowsAll(m, rules[..a + 1], older, skip, i, cur)
  {
    assert rules[..a + 1] == rules[..a] + [rules[a]];
  }

  /** `FollowsAll` over more parent items. */
  lemma FollowsAllItems(m: Machine, rule: Rule, older: seq<EItem>, j: nat, skip: seq<EItem>, i: nat, cur: seq<EItem>)
    requires j < |older|
    requires FollowsAll(m, [rule], older[..j], skip, i, cur)
    requires older[j] !in skip ==> Follows(m, older[j].state, rule.lhs, older[j].parent, i, cur)
    ensures FollowsAll(m, [rule], older[..j + 1], skip, i, cur)
  {
    assert older[..j + 1] == older[..j] + [older[j]];
  }

  lemma ScanDoneMono(newrules: NewRules, m: Machine, m': Machine, it: EItem, scan: Scan, at: nat,
                     next: seq<EItem>, next': seq<EItem>)
    requires TargetsExist(m) && Extends(m, m') && it.state < |m.states|
    requires (forall x :: x in next ==> x in next') && ScanDone(m, it, scan, at, next)
    ensures ScanDone(m', it, scan, at, next')
  {
    assert m'.states[it.state] == m.states[it.state];
    if ScanSymbol(m', it.state, scan).Some? {
      FollowsMono(newrules, m, m', it.state, ScanSymbol(m, it.state, scan).value, it.parent, at, next, next');
    }
  }

  lemma CompleteDoneMono(newrules: NewRules, m: Machine, m': Machine, older: seq<seq<EItem>>, skip: seq<EItem>, it: EItem,
                         i: nat, cur: seq<EItem>, cur': seq<EItem>)
    requires TargetsExist(m) && Extends(m, m') && AllInRange(m, older, skip)
    requires (forall x :: x in cur ==> x in cur') && CompleteDone(m, older, skip, it, i, cur)
    ensures CompleteDone(m', older, skip, it, i, cur')
  {
    if it.parent != i {
      assert m'.states[it.state] == m.states[it.state];
      FollowsAllMono(newrules, m, m', m.states[it.state].complete, older[it.parent], skip, i, cur, cur');
    }
  }

  // ---------------------------------------------------------------------
  // The two steps of makeSet for one item.
  // ---------------------------------------------------------------------

  /**
   * The scanning step of `makeSet` for the item `it` of set `i`:
   * `add = fn(state, arg)`, and each target `k` it finds is entered in
   * `next` with the item's parent and a link back to `(it, i)`.
   */
  method ScanItem(newrules: NewRules, m: Machine, links: Links, next: seq<EItem>, it: EItem, i: nat, scan: Scan)
    returns (m': Machine, next': seq<EItem>, links': Links, r: Outcome)
    requires Good(newrules, m) && SetOk(next, i + 1, links) && it.parent <= i && Owned(links, next, i + 1)
    ensures Good(newrules, m') && Extends(m, m')
    ensures SetOk(next', i + 1, links') && next <= next' && links.Keys <= links'.Keys
    ensures forall x :: x in next' ==> x in next || x.state < |m'.states|
    ensures r.Done? ==> ScanDone(m', it, scan, i + 1, next')
    ensures r.Failed? ==> r.error == Crash("KeyError") && scan.ByToken? && it.state >= |m.states|
    ensures NewOnly(m', Scanned(it, scan), i + 1, |next|, next')
    ensures Grown(m', ScanVia(it, i, scan), links, links') && Owned(links', next', i + 1)
  {
    var add: seq<Option<nat>>;
    match scan {
      case ByType(t) =>
        m', add := TargetsByType(newrules, m, it.state, t);
      case ByToken(tok) =>
        var err;
        m', add, err := TargetsByToken(newrules, m, it.state, tok);
        if err {
          GrownRefl(m', ScanVia(it, i, scan), links);
          return m', next, links, Failed(Crash("KeyError"));
        }
    }
    next', links' := next, links;
    GrownRefl(m', ScanVia(it, i, scan), links);
    for a := 0 to |add|
      invariant SetOk(next', i + 1, links') && next <= next' && links.Keys <= links'.Keys
      invariant forall x :: x in next' ==> x in next || x.state < |m'.states|
      invariant 0 < a && add[0].Some? ==> Entered(m', add[0].value, it.parent, i + 1, next')
      invariant NewOnly(m', Scanned(it, scan), i + 1, |next|, next')
      invariant Grown(m', ScanVia(it, i, scan), links, links') && Owned(links', next', i + 1)
    {
      if add[a].Some? {
        ghost var prev, before := next', links';
        next', links' := Enter(m', links', next', add[a].value, it.parent, i + 1, Link(Ptr(it, i), None), Scanned(it, scan));
        NewOnlyGrow(m', m', Scanned(it, scan), i + 1, |next|, prev, next');
        GrownAppend(m', ScanVia(it, i, scan), links, before, Ptr(EItem(add[a].value, it.parent), i + 1), Link(Ptr(it, i), None));
      }
    }
    r := Done;
  }

  /**
   * `fn(state, arg)` for a scan by type: `gotoT(state, ttype)`, whose one
   * target is the state's transition on the type, if it has one.
   */
  method TargetsByType(newrules: NewRules, m: Machine, s: nat, t: Symbol) returns (m': Machine, add: seq<Option<nat>>)
    requires Good(newrules, m)
    ensures Good(newrules, m') && Extends(m, m')
    ensures |add| <= 1 && forall a :: 0 <= a < |add| && add[a].Some? ==> add[a].value < |m'.states|
    ensures (s, On(t)) in m'.edges ==> |add| == 1 && add[0].Some? && m'.edges[(s, On(t))] == add[0]
    ensures forall a :: 0 <= a < |add| && add[a].Some? ==> (s, On(t)) in m'.edges && m'.edges[(s, On(t))] == add[a]
  {
    m', add := GotoT(newrules, m, s, t);
  }

  /**
   * `fn(state, arg)` for a scan by the token itself: `gotoST(state,
   * token)`, at most one target, the transition on the terminal the token
   * equals; `KeyError` for a state that does not exist.
   */
  method TargetsByToken(newrules: NewRules, m: Machine, s: nat, tok: Option<Token>)
    returns (m': Machine, add: seq<Option<nat>>, err: bool)
    requires Good(newrules, m)
    ensures Good(newrules, m') && Extends(m, m')
    ensures err <==> s >= |m.states|
    ensures |add| <= 1 && forall a :: 0 <= a < |add| && add[a].Some? ==> add[a].value < |m'.states|
    ensures var sym := ScanSymbol(m', s, ByToken(tok));
      sym.Some? && (s, On(sym.value)) in m'.edges ==> |add| == 1 && add[0].Some? && m'.edges[(s, On(sym.value))] == add[0]
    ensures var sym := ScanSymbol(m', s, ByToken(tok));
      forall a :: 0 <= a < |add| && add[a].Some? ==>
        sym.Some? && (s, On(sym.value)) in m'.edges && m'.edges[(s, On(sym.value))] == add[a]
  {
    var res;
    m', res := GotoST(newrules, m, s, tok);
    if res.Err? {
      return m', [], true;
    }
    add, err := res.value, false;
    ByTokenHits(m, m', s, tok, add);
  }

  /** The goto list of `gotoST` seen as the scan of state `s` by the token. */
  lemma ByTokenHits(m: Machine, m': Machine, s: nat, tok: Option<Token>, add: seq<Option<nat>>)
    requires s < |m.states| && m.states <= m'.states
    requires |add| == (if tok.Some? && TokenText(tok.value) in m.states[s].t then 1 else 0)
    requires Hits(m', s, tok, add)
    ensures |add| <= 1 && forall a :: 0 <= a < |add| && add[a].Some? ==> add[a].value < |m'.states|
    ensures var sym := ScanSymbol(m', s, ByToken(tok));
      sym.Some? && (s, On(sym.value)) in m'.edges ==> |add| == 1 && add[0].Some? && m'.edges[(s, On(sym.value))] == add[0]
    ensures var sym := ScanSymbol(m', s, ByToken(tok));
      forall a :: 0 <= a < |add| && add[a].Some? ==>
        sym.Some? && (s, On(sym.value)) in m'.edges && m'.edges[(s, On(sym.value))] == add[a]
  {
    assert m'.states[s] == m.states[s];
  }

  /**
   * One step of the completion of `it` in set `i`: `k = goto(pstate, lhs)`
   * for the parent item `pit`, and if there is a target it is entered in
   * `cur` with the parent item's parent and the link `link`.
   */
  method CompleteFrom(newrules: NewRules, m: Machine, links: Links, cur: seq<EItem>, pit: EItem, sym: Symbol, i: nat, link: Link)
    returns (m': Machine, cur': seq<EItem>, links': Links)
    requires Good(newrules, m) && SetOk(cur, i, links) && pit.parent < i && Owned(links, cur, i)
    ensures Good(newrules, m') && Extends(m, m')
    ensures SetOk(cur', i, links') && cur <= cur' && links.Keys <= links'.Keys
    ensures forall x :: x in cur' ==> x in cur || x.state < |m'.states|
    ensures Follows(m', pit.state, sym, pit.parent, i, cur')
    ensures NewOnly(m', Stepped(pit, sym), i, |cur|, cur')
    ensures Owned(links', cur', i)
    ensures if (pit.state, On(sym)) in m'.edges then
        && m'.edges[(pit.state, On(sym))].Some?
        && links' == Append(links, Ptr(EItem(m'.edges[(pit.state, On(sym))].value, pit.parent), i), link)
      else links' == links
  {
    var k;
    m', k := Goto(newrules, m, pit.state, On(sym));
    cur', links' := cur, links;
    if k.Some? {
      cur', links' := Enter(m', links, cur, k.value, pit.parent, i, link, Stepped(pit, sym));
    }
  }

  /**
   * The completion of `it` in set `i` by one rule its state completes:
   * `CompleteFrom` for each item of the parent set, in order.
   */
  method CompleteRule(newrules: NewRules, m: Machine, links: Links, cur: seq<EItem>, older: seq<EItem>, skip: seq<EItem>,
                      i: nat, it: EItem, rule: Rule)
    returns (m': Machine, cur': seq<EItem>, links': Links)
    requires Good(newrules, m) && SetOk(cur, i, links) && InRange(m, older, skip)
    requires forall x :: x in older ==> x.parent < i
    requires Owned(links, cur, i)
    ensures Good(newrules, m') && Extends(m, m')
    ensures SetOk(cur', i, links') && cur <= cur' && links.Keys <= links'.Keys
    ensures forall x :: x in cur' ==> x in cur || x.state < |m'.states|
    ensures FollowsAll(m', [rule], older, skip, i, cur')
    ensures NewOnly(m', ByRule(older, rule), i, |cur|, cur')
    ensures Grown(m', RuleVia(older, it, i, rule), links, links') && Owned(links', cur', i)
  {
    m', cur', links' := m, cur, links;
    GrownRefl(m, RuleVia(older, it, i, rule), links);
    for j := 0 to |older|
      invariant Good(newrules, m') && Extends(m, m')
      invariant SetOk(cur', i, links') && cur <= cur' && links.Keys <= links'.Keys
      invariant forall x :: x in cur' ==> x in cur || x.state < |m'.states|
      invariant InRange(m', older, skip)
      invariant FollowsAll(m', [rule], older[..j], skip, i, cur')
      invariant NewOnly(m', ByRule(older, rule), i, |cur|, cur')
      invariant Grown(m', RuleVia(older, it, i, rule), links, links') && Owned(links', cur', i)
    {
      var pit := older[j];
      assert pit in older;
      var link := Link(Ptr(pit, it.parent), Some(Cause(it, i, rule)));
      var m1, cur1, links1 := CompleteFrom(newrules, m', links', cur', pit, rule.lhs, i, link);
      RuleRecorded(m', m1, older, it, i, rule, pit, links, links', links1);
      StepToRule(m1, older, pit, rule, i, |cur'|, cur1);
      NewOnlyGrow(m', m1, ByRule(older, rule), i, |cur|, cur', cur1);
      assert InRange(m', older[..j], skip);
      FollowsAllMono(newrules, m', m1, [rule], older[..j], skip, i, cur', cur1);
      FollowsAllItems(m1, rule, older, j, skip, i, cur1);
      m', cur', links' := m1, cur1, links1;
    }
    assert older[..|older|] == older;
  }

  /** The link `CompleteFrom` records for a parent item is one that completing `it` by `rule` records. */
  lemma RuleRecorded(m: Machine, m1: Machine, parents: seq<EItem>, it: EItem, i: nat, rule: Rule, pit: EItem,
                     links: Links, before: Links, links1: Links)
    requires Extends(m, m1) && pit in parents && Grown(m, RuleVia(parents, it, i, rule), links, before)
    requires if (pit.state, On(rule.lhs)) in m1.edges then
        && m1.edges[(pit.state, On(rule.lhs))].Some?
        && links1 == Append(before, Ptr(EItem(m1.edges[(pit.state, On(rule.lhs))].value, pit.parent), i),
                            Link(Ptr(pit, it.parent), Some(Cause(it, i, rule))))
      else links1 == before
    ensures Grown(m1, RuleVia(parents, it, i, rule), links, links1)
  {
    GrownMono(m, m1, RuleVia(parents, it, i, rule), links, before);
    if (pit.state, On(rule.lhs)) in m1.edges {
      var key := Ptr(EItem(m1.edges[(pit.state, On(rule.lhs))].value, pit.parent), i);
      assert StepTo(m1, pit, rule.lhs, key.item);
      GrownAppend(m1, RuleVia(parents, it, i, rule), links, before, key, Link(Ptr(pit, it.parent), Some(Cause(it, i, rule))));
    }
  }

  /**
   * The completion step of `makeSet` for the item `it` of set `i`, which
   * did not start there: `CompleteRule` for every rule of
   * `self.states[state].complete`, a `KeyError` if the state does not exist.
   */
  method CompleteItem(newrules: NewRules, m: Machine, links: Links, cur: seq<EItem>, older: seq<EItem>, skip: seq<EItem>,
                      i: nat, it: EItem)
    returns (m': Machine, cur': seq<EItem>, links': Links, r: Outcome)
    requires Good(newrules, m) && SetOk(cur, i, links) && InRange(m, older, skip)
    requires forall x :: x in older ==> x.parent < i
    requires Owned(links, cur, i)
    ensures Good(newrules, m') && Extends(m, m')
    ensures SetOk(cur', i, links') && cur <= cur' && links.Keys <= links'.Keys
    ensures forall x :: x in cur' ==> x in cur || x.state < |m'.states|
    ensures r.Done? ==> it.state < |m'.states| && FollowsAll(m', m'.states[it.state].complete, older, skip, i, cur')
    ensures r.Failed? ==> r.error == Crash("KeyError") && it.state >= |m.states|
    ensures NewOnly(m', Completes(older, it), i, |cur|, cur')
    ensures Grown(m', ItemVia(older, it, i), links, links') && Owned(links', cur', i)
  {
    GrownRefl(m, ItemVia(older, it, i), links);
    if it.state >= |m.states| {
      return m, cur, links, Failed(Crash("KeyError"));
    }
    var complete := m.states[it.state].complete;
    m', cur', links' := m, cur, links;
    for a := 0 to |complete|
      invariant Good(newrules, m') && Extends(m, m')
      invariant SetOk(cur', i, links') && cur <= cur' && links.Keys <= links'.Keys
      invariant forall x :: x in cur' ==> x in cur || x.state < |m'.states|
      invariant InRange(m', older, skip)
      invariant FollowsAll(m', complete[..a], older, skip, i, cur')
      invariant NewOnly(m', Completes(older, it), i, |cur|, cur')
      invariant Grown(m', ItemVia(older, it, i), links, links') && Owned(links', cur', i)
    {
      var m1, cur1, links1 := CompleteRule(newrules, m', links', cur', older, skip, i, it, complete[a]);
      assert m1.states[it.state] == m.states[it.state];
      ItemRecorded(m', m1, older, it, i, complete[a], links, links', links1);
      RuleCompletes(m1, older, it, complete[a], i, |cur'|, cur1);
      NewOnlyGrow(m', m1, Completes(older, it), i, |cur|, cur', cur1);
      FollowsAllMono(newrules, m', m1, complete[..a], older, skip, i, cur', cur1);
      FollowsAllRules(m1, complete, a, older, skip, i, cur1);
      m', cur', links' := m1, cur1, links1;
    }
    assert complete[..|complete|] == complete;
    assert m'.states[it.state] == m.states[it.state];
    r := Done;
  }

  /** What completing `it` by one rule its state completes records, completing `it` records. */
  lemma ItemRecorded(m: Machine, m1: Machine, parents: seq<EItem>, it: EItem, i: nat, rule: Rule,
                     links: Links, before: Links, links1: Links)
    requires Extends(m, m1) && it.state < |m1.states| && rule in m1.states[it.state].complete
    requires Grown(m, ItemVia(parents, it, i), links, before)
    requires Grown(m1, RuleVia(parents, it, i, rule), before, links1)
    ensures Grown(m1, ItemVia(parents, it, i), links, links1)
  {
    GrownMono(m, m1, ItemVia(parents, it, i), links, before);
    forall key, l | LinkVia(m1, RuleVia(parents, it, i, rule), key, l) ensures LinkVia(m1, ItemVia(parents, it, i), key, l) {
    }
    GrownLift(m1, m1, RuleVia(parents, it, i, rule), ItemVia(parents, it, i), before, links1);
    GrownTrans(m1, ItemVia(parents, it, i), links, before, links1);
  }

  // ---------------------------------------------------------------------
  // makeSet
  // ---------------------------------------------------------------------

  /** Every item of `done`, stale ones apart, has been scanned and completed. */
  ghost predicate Processed(m: Machine, older: seq<seq<EItem>>, skip: seq<EItem>, scan: Scan,
                            done: seq<EItem>, cur: seq<EItem>, next: seq<EItem>) {
    forall x :: x in done && x !in skip ==>
      ScanDone(m, x, scan, |older| + 1, next) && CompleteDone(m, older, skip, x, |older|, cur)
  }

  lemma ProcessedMono(newrules: NewRules, m: Machine, m': Machine, older: seq<seq<EItem>>, skip: seq<EItem>,
                      scan: Scan, done: seq<EItem>, cur: seq<EItem>, cur': seq<EItem>, next: seq<EItem>, next': seq<EItem>)
    requires TargetsExist(m) && Extends(m, m') && InRange(m, done, skip) && AllInRange(m, older, skip)
    requires (forall x :: x in cur ==> x in cur') && (forall x :: x in next ==> x in next')
    requires Processed(m, older, skip, scan, done, cur, next)
    ensures Processed(m', older, skip, scan, done, cur', next')
  {
    forall x | x in done && x !in skip
      ensures ScanDone(m', x, scan, |older| + 1, next') && CompleteDone(m', older, skip, x, |older|, cur')
    {
      ScanDoneMono(newrules, m, m', x, scan, |older| + 1, next, next');
      CompleteDoneMono(newrules, m, m', older, skip, x, |older|, cur, cur');
    }
  }

  /** One more item processed. */
  lemma ProcessedNext(m: Machine, older: seq<seq<EItem>>, skip: seq<EItem>, scan: Scan, cur: seq<EItem>,
                      j: nat, next: seq<EItem>)
    requires j < |cur| && Processed(m, older, skip, scan, cur[..j], cur, next)
    requires cur[j] !in skip ==>
      ScanDone(m, cur[j], scan, |older| + 1, next) && CompleteDone(m, older, skip, cur[j], |older|, cur)
    ensures Processed(m, older, skip, scan, cur[..j + 1], cur, next)
  {
    assert cur[..j + 1] == cur[..j] + [cur[j]];
  }

  /** Links only ever gain keys, so the sets keep theirs. */
  lemma SetsOkGrow(older: seq<seq<EItem>>, links: Links, links': Links)
    requires links.Keys <= links'.Keys && forall j :: 0 <= j < |older| ==> SetOk(older[j], j, links)
    ensures forall j :: 0 <= j < |older| ==> SetOk(older[j], j, links')
  {
  }

  /** A grown automaton keeps the states of the sets in range. */
  lemma InRangeMono(m: Machine, m': Machine, older: seq<seq<EItem>>, X: seq<EItem>, skip: seq<EItem>)
    requires |m.states| <= |m'.states| && AllInRange(m, older, skip) && InRange(m, X, skip)
    ensures AllInRange(m', older, skip) && InRange(m', X, skip)
  {
  }

  /**
   * The body of the loop of `makeSet` for the item `cur[j]` of set `i`: its
   * scan into `next`, then, unless it started at `i`, its completion into
   * `cur`. A failure is the `KeyError` of a stale item.
   */
  method ProcessItem(newrules: NewRules, m: Machine, links: Links, older: seq<seq<EItem>>, skip: seq<EItem>,
                     scan: Scan, cur: seq<EItem>, next: seq<EItem>, j: nat)
    returns (m': Machine, cur': seq<EItem>, next': seq<EItem>, links': Links, r: Outcome)
    requires Good(newrules, m) && j < |cur|
    requires SetOk(cur, |older|, links) && SetOk(next, |older| + 1, links)
    requires forall k :: 0 <= k < |older| ==> SetOk(older[k], k, links)
    requires InRange(m, cur, skip) && InRange(m, next, skip) && AllInRange(m, older, skip)
    requires Processed(m, older, skip, scan, cur[..j], cur, next)
    requires Owned(links, cur, |older|) && Owned(links, next, |older| + 1)
    ensures Good(newrules, m') && Extends(m, m')
    ensures SetOk(cur', |older|, links') && SetOk(next', |older| + 1, links')
    ensures forall k :: 0 <= k < |older| ==> SetOk(older[k], k, links')
    ensures cur <= cur' && next <= next' && links.Keys <= links'.Keys
    ensures InRange(m', cur', skip) && InRange(m', next', skip) && AllInRange(m', older, skip)
    ensures r.Done? ==> Processed(m', older, skip, scan, cur'[..j + 1], cur', next')
    ensures r.Failed? ==> r.error == Crash("KeyError") && cur[j] in skip && cur[j].state >= |m.states|
    ensures NewOnly(m', Scanned(cur[j], scan), |older| + 1, |next|, next')
    ensures NewOnly(m', Completing(older, cur[j]), |older|, |cur|, cur')
    ensures Grown(m', StepVia(older, cur[j], scan), links, links')
    ensures Owned(links', cur', |older|) && Owned(links', next', |older| + 1)
  {
    var i := |older|;
    var it := cur[j];
    var m1, links1;
    m1, next', links1, r := ScanItem(newrules, m, links, next, it, i, scan);
    SetsOkGrow(older, links, links1);
    InRangeMono(m, m1, older, cur, skip);
    ScanRecorded(m1, older, it, scan, links, links1, cur);
    if r.Failed? {
      return m1, cur, next', links1, r;
    }
    m', cur', links', r := CompleteStep(newrules, m1, links1, older, skip, cur, it);
    NewOnlyGrow(m1, m', Scanned(it, scan), i + 1, |next|, next', next');
    InRangeMono(m1, m', older, next', skip);
    if r.Done? {
      ProcessedStep(newrules, m, m1, m', older, skip, scan, cur, cur', j, next, next');
    }
    StepRecorded(m1, m', older, it, scan, links, links1, links', next');
  }

  /**
   * The completion step of the loop body: nothing for an item that started
   * in this set, `CompleteItem` otherwise.
   */
  method CompleteStep(newrules: NewRules, m: Machine, links: Links, older: seq<seq<EItem>>, skip: seq<EItem>,
                      cur: seq<EItem>, it: EItem)
    returns (m': Machine, cur': seq<EItem>, links': Links, r: Outcome)
    requires Good(newrules, m) && it in cur && InRange(m, cur, skip) && AllInRange(m, older, skip)
    requires SetOk(cur, |older|, links) && forall k :: 0 <= k < |older| ==> SetOk(older[k], k, links)
    requires Owned(links, cur, |older|)
    ensures Good(newrules, m') && Extends(m, m')
    ensures SetOk(cur', |older|, links') && forall k :: 0 <= k < |older| ==> SetOk(older[k], k, links')
    ensures cur <= cur' && links.Keys <= links'.Keys
    ensures InRange(m', cur', skip) && AllInRange(m', older, skip)
    ensures r.Done? ==> CompleteDone(m', older, skip, it, |older|, cur')
    ensures r.Failed? ==> r.error == Crash("KeyError") && it.state >= |m.states|
    ensures NewOnly(m', Completing(older, it), |older|, |cur|, cur')
    ensures Grown(m', CompletingVia(older, it), links, links') && Owned(links', cur', |older|)
  {
    if it.parent == |older| {
      GrownRefl(m, CompletingVia(older, it), links);
      return m, cur, links, Done;
    }
    assert SetOk(older[it.parent], it.parent, links) && InRange(m, older[it.parent], skip);
    m', cur', links', r := CompleteItem(newrules, m, links, cur, older[it.parent], skip, |older|, it);
    CompletedStep(newrules, m, m', links, links', older, skip, cur, cur', it);
  }

  /** What completing `it` against its parent set gives, seen from all the sets. */
  lemma CompletedStep(newrules: NewRules, m: Machine, m': Machine, links: Links, links': Links, older: seq<seq<EItem>>,
                      skip: seq<EItem>, cur: seq<EItem>, cur': seq<EItem>, it: EItem)
    requires Good(newrules, m) && Extends(m, m') && it.parent < |older|
    requires AllInRange(m, older, skip) && InRange(m, cur, skip)
    requires forall k :: 0 <= k < |older| ==> SetOk(older[k], k, links)
    requires links.Keys <= links'.Keys
    requires NewOnly(m', Completes(older[it.parent], it), |older|, |cur|, cur')
    requires Grown(m', ItemVia(older[it.parent], it, |older|), links, links')
    ensures forall k :: 0 <= k < |older| ==> SetOk(older[k], k, links')
    ensures AllInRange(m', older, skip) && InRange(m', cur, skip)
    ensures NewOnly(m', Completing(older, it), |older|, |cur|, cur')
    ensures Grown(m', CompletingVia(older, it), links, links')
  {
    NewOnlyWeaken(m', Completes(older[it.parent], it), Completing(older, it), |older|, |cur|, cur');
    SetsOkGrow(older, links, links');
    InRangeMono(m, m', older, cur, skip);
    CompletingRecorded(m', older, it, links, links');
  }

  /** What completing `it` against its parent set records, the completion of `it` in set `|older|` records. */
  lemma CompletingRecorded(m: Machine, older: seq<seq<EItem>>, it: EItem, links: Links, links': Links)
    requires it.parent < |older| && Grown(m, ItemVia(older[it.parent], it, |older|), links, links')
    ensures Grown(m, CompletingVia(older, it), links, links')
  {
    forall key, l | LinkVia(m, ItemVia(older[it.parent], it, |older|), key, l) ensures LinkVia(m, CompletingVia(older, it), key, l) {
    }
    GrownLift(m, m, ItemVia(older[it.parent], it, |older|), CompletingVia(older, it), links, links');
  }

  /** What scanning `it` records, processing `it` records. */
  lemma ScanRecorded(m: Machine, older: seq<seq<EItem>>, it: EItem, scan: Scan, links: Links, links': Links, cur: seq<EItem>)
    requires Grown(m, ScanVia(it, |older|, scan), links, links') && Owned(links, cur, |older|)
    ensures Grown(m, StepVia(older, it, scan), links, links') && Owned(links', cur, |older|)
  {
    OwnedElsewhere(m, ScanVia(it, |older|, scan), links, links', cur, |older|);
    forall key, l | LinkVia(m, ScanVia(it, |older|, scan), key, l) ensures LinkVia(m, StepVia(older, it, scan), key, l) {
    }
    GrownLift(m, m, ScanVia(it, |older|, scan), StepVia(older, it, scan), links, links');
  }

  /** The scan of `it`, then its completion: what processing `it` records. */
  lemma StepRecorded(m1: Machine, m': Machine, older: seq<seq<EItem>>, it: EItem, scan: Scan,
                     links: Links, links1: Links, links': Links, next: seq<EItem>)
    requires Extends(m1, m') && Grown(m1, StepVia(older, it, scan), links, links1)
    requires Grown(m', CompletingVia(older, it), links1, links') && Owned(links1, next, |older| + 1)
    ensures Grown(m', StepVia(older, it, scan), links, links') && Owned(links', next, |older| + 1)
  {
    OwnedElsewhere(m', CompletingVia(older, it), links1, links', next, |older| + 1);
    GrownMono(m1, m', StepVia(older, it, scan), links, links1);
    forall key, l | LinkVia(m', CompletingVia(older, it), key, l) ensures LinkVia(m', StepVia(older, it, scan), key, l) {
    }
    GrownLift(m', m', CompletingVia(older, it), StepVia(older, it, scan), links1, links');
    GrownTrans(m', StepVia(older, it, scan), links, links1, links');
  }

  /** The item `cur[j]` joins the processed prefix, whose items stay processed. */
  lemma ProcessedStep(newrules: NewRules, m: Machine, m1: Machine, m': Machine, older: seq<seq<EItem>>, skip: seq<EItem>,
                      scan: Scan, cur: seq<EItem>, cur': seq<EItem>, j: nat, next: seq<EItem>, next': seq<EItem>)
    requires Good(newrules, m) && Good(newrules, m1) && Extends(m, m1) && Extends(m1, m')
    requires j < |cur| && cur <= cur' && forall x :: x in next ==> x in next'
    requires InRange(m, cur, skip) && AllInRange(m, older, skip)
    requires Processed(m, older, skip, scan, cur[..j], cur, next)
    requires cur[j] !in skip ==> ScanDone(m1, cur[j], scan, |older| + 1, next')
    requires CompleteDone(m', older, skip, cur[j], |older|, cur')
    ensures Processed(m', older, skip, scan, cur'[..j + 1], cur', next')
  {
    ExtendsTrans(m, m1, m');
    assert InRange(m, cur[..j], skip);
    ProcessedMono(newrules, m, m', older, skip, scan, cur[..j], cur, cur', next, next');
    if cur[j] !in skip {
      assert cur[j] in cur;
      ScanDoneMono(newrules, m1, m', cur[j], scan, |older| + 1, next', next');
    }
    assert cur'[..j] == cur[..j] && cur'[j] == cur[j];
    ProcessedNext(m', older, skip, scan, cur', j, next');
  }

  /** A transition from an item of `parents` over the lhs of `rule` is justified by that rule. */
  lemma StepToRule(m: Machine, parents: seq<EItem>, pit: EItem, rule: Rule, at: nat, len: nat, X: seq<EItem>)
    requires pit in parents && NewOnly(m, Stepped(pit, rule.lhs), at, len, X)
    ensures NewOnly(m, ByRule(parents, rule), at, len, X)
  {
    forall x | Justifies(m, Stepped(pit, rule.lhs), x) ensures Justifies(m, ByRule(parents, rule), x) {
      assert StepTo(m, pit, rule.lhs, x);
    }
    NewOnlyWeaken(m, Stepped(pit, rule.lhs), ByRule(parents, rule), at, len, X);
  }

  /** A rule the state of `it` completes justifies what completing `it` gives. */
  lemma RuleCompletes(m: Machine, parents: seq<EItem>, it: EItem, rule: Rule, at: nat, len: nat, X: seq<EItem>)
    requires it.state < |m.states| && rule in m.states[it.state].complete
    requires NewOnly(m, ByRule(parents, rule), at, len, X)
    ensures NewOnly(m, Completes(parents, it), at, len, X)
  {
    NewOnlyWeaken(m, ByRule(parents, rule), Completes(parents, it), at, len, X);
  }

  /** `x` is what the scan of some item of `X` enters in the next set. */
  ghost predicate ScannedFromSet(m: Machine, X: seq<EItem>, scan: Scan, x: EItem) {
    exists y :: y in X && Justifies(m, Scanned(y, scan), x)
  }

  lemma ScannedFromSetMono(m: Machine, m': Machine, X: seq<EItem>, scan: Scan, x: EItem)
    requires Extends(m, m') && ScannedFromSet(m, X, scan, x)
    ensures ScannedFromSet(m', X, scan, x)
  {
    var y :| y in X && Justifies(m, Scanned(y, scan), x);
    JustifiesMono(m, m', Scanned(y, scan), x);
  }

  /**
   * Every item `makeSet` adds has a cause: in set `i + 1`, past the
   * `n0` items it had, the transition of the scan of an item of set `i`;
   * in set `i`, past its `c0` items, the completion of an item before it;
   * in either, the ε-successor of an item before it.
   */
  ghost predicate Supported(m: Machine, older: seq<seq<EItem>>, scan: Scan, c0: nat, n0: nat,
                            cur: seq<EItem>, next: seq<EItem>) {
    && (forall n :: n0 <= n < |next| ==> ScanCaused(m, older, scan, cur, next, n))
    && (forall n :: c0 <= n < |cur| ==> CompletionCaused(m, older, cur, n))
  }

  /** `next[n]` is the transition of the scan of an item of `cur`, or an ε-successor. */
  ghost predicate ScanCaused(m: Machine, older: seq<seq<EItem>>, scan: Scan, cur: seq<EItem>, next: seq<EItem>, n: nat)
    requires n < |next|
  {
    ScannedFromSet(m, cur, scan, next[n]) || EpsBefore(m, next, n, |older| + 1)
  }

  /** `cur[n]` completes from an item before it, or is an ε-successor. */
  ghost predicate CompletionCaused(m: Machine, older: seq<seq<EItem>>, cur: seq<EItem>, n: nat)
    requires n < |cur|
  {
    (exists p :: 0 <= p < n && Justifies(m, Completing(older, cur[p]), cur[n])) || EpsBefore(m, cur, n, |older|)
  }

  /** Processing `cur[j]` keeps every item of both sets caused. */
  lemma SupportedStep(m: Machine, m': Machine, older: seq<seq<EItem>>, scan: Scan, c0: nat, n0: nat,
                      cur: seq<EItem>, next: seq<EItem>, cur': seq<EItem>, next': seq<EItem>, j: nat)
    requires Extends(m, m') && cur <= cur' && next <= next' && j < |cur|
    requires Supported(m, older, scan, c0, n0, cur, next)
    requires NewOnly(m', Scanned(cur[j], scan), |older| + 1, |next|, next')
    requires NewOnly(m', Completing(older, cur[j]), |older|, |cur|, cur')
    ensures Supported(m', older, scan, c0, n0, cur', next')
  {
    forall n | n0 <= n < |next'|
      ensures ScanCaused(m', older, scan, cur', next', n)
    {
      if n < |next| {
        assert ScanCaused(m, older, scan, cur, next, n);
      }
      if n >= |next| {
        if Justifies(m', Scanned(cur[j], scan), next'[n]) {
          assert cur[j] in cur' by { assert cur'[j] == cur[j]; }
        }
      } else if EpsBefore(m, next, n, |older| + 1) {
        EpsBeforeMono(m, m', next, next', n, |older| + 1);
      } else {
        var y :| y in cur && Justifies(m, Scanned(y, scan), next[n]);
        JustifiesMono(m, m', Scanned(y, scan), next[n]);
        assert y in cur' && next'[n] == next[n];
      }
    }
    forall n | c0 <= n < |cur'|
      ensures CompletionCaused(m', older, cur', n)
    {
      if n < |cur| {
        assert CompletionCaused(m, older, cur, n);
      }
      if n >= |cur| {
        assert cur'[j] == cur[j];
      } else if EpsBefore(m, cur, n, |older|) {
        EpsBeforeMono(m, m', cur, cur', n, |older|);
      } else {
        var p :| 0 <= p < n && Justifies(m, Completing(older, cur[p]), cur[n]);
        JustifiesMono(m, m', Completing(older, cur[p]), cur[n]);
        assert cur'[p] == cur[p] && cur'[n] == cur[n];
      }
    }
  }

  /** What processing `cur[j]` records, closing the set records. */
  lemma SetRecorded(m: Machine, m1: Machine, older: seq<seq<EItem>>, scan: Scan, cur: seq<EItem>, cur1: seq<EItem>,
                    j: nat, links: Links, links': Links, links1: Links)
    requires Extends(m, m1) && cur <= cur1 && j < |cur|
    requires Grown(m, SetVia(older, cur, scan), links, links')
    requires Grown(m1, StepVia(older, cur[j], scan), links', links1)
    ensures Grown(m1, SetVia(older, cur1, scan), links, links1)
  {
    GrownMono(m, m1, SetVia(older, cur, scan), links, links');
    forall key, l | LinkVia(m1, SetVia(older, cur, scan), key, l) ensures LinkVia(m1, SetVia(older, cur1, scan), key, l) {
      assert l.pred.item in cur ==> l.pred.item in cur1;
      assert l.cause.Some? && l.cause.value.item in cur ==> l.cause.value.item in cur1;
    }
    GrownLift(m1, m1, SetVia(older, cur, scan), SetVia(older, cur1, scan), links, links');
    assert cur1[j] == cur[j];
    forall key, l | LinkVia(m1, StepVia(older, cur[j], scan), key, l) ensures LinkVia(m1, SetVia(older, cur1, scan), key, l) {
    }
    GrownLift(m1, m1, StepVia(older, cur[j], scan), SetVia(older, cur1, scan), links', links1);
    GrownTrans(m1, SetVia(older, cur1, scan), links, links', links1);
  }

  /**
   * `makeSet(token, sets, i)` with `sets = older + [cur0, next0]`: every
   * item of set `i`, including those the loop itself adds, is scanned over
   * `token` into set `i + 1` and completed into set `i`. When it is done,
   * every item of the two sets but the stale ones has both steps done; it
   * fails with the `KeyError` of a stale item, or runs out of `fuel`
   * iterations. Every link it adds is the scan or a completion of an
   * item of set `i`.
   */
  method MakeSet(newrules: NewRules, m: Machine, links: Links, older: seq<seq<EItem>>, cur0: seq<EItem>, next0: seq<EItem>,
                 skip: seq<EItem>, token: Option<Token>, typestring: Token -> Option<Symbol>, fuel: nat)
    returns (m': Machine, links': Links, cur: seq<EItem>, next: seq<EItem>, r: Outcome)
    requires Good(newrules, m)
    requires SetOk(cur0, |older|, links) && SetOk(next0, |older| + 1, links)
    requires forall k :: 0 <= k < |older| ==> SetOk(older[k], k, links)
    requires InRange(m, cur0, skip) && InRange(m, next0, skip) && AllInRange(m, older, skip)
    requires Owned(links, cur0, |older|) && Owned(links, next0, |older| + 1)
    ensures Good(newrules, m') && Extends(m, m')
    ensures SetOk(cur, |older|, links') && SetOk(next, |older| + 1, links')
    ensures forall k :: 0 <= k < |older| ==> SetOk(older[k], k, links')
    ensures cur0 <= cur && next0 <= next && links.Keys <= links'.Keys
    ensures InRange(m', cur, skip) && InRange(m', next, skip) && AllInRange(m', older, skip)
    ensures r.Done? ==> Processed(m', older, skip, ScanOf(token, typestring), cur, cur, next)
    ensures Supported(m', older, ScanOf(token, typestring), |cur0|, |next0|, cur, next)
    ensures Grown(m', SetVia(older, cur, ScanOf(token, typestring)), links, links')
    ensures Owned(links', cur, |older|) && Owned(links', next, |older| + 1)
    ensures r.Failed? ==>
      r.error == OutOfFuel || (r.error == Crash("KeyError") && exists x :: x in cur && x in skip && x.state >= |m.states|)
    ensures r == Failed(OutOfFuel) ==> fuel < |cur|
  {
    var scan := ScanOf(token, typestring);
    m', links', cur, next := m, links, cur0, next0;
    var j := 0;
    GrownRefl(m', SetVia(older, cur, scan), links');
    while j < |cur|
      invariant j <= |cur| && j <= fuel
      invariant Good(newrules, m') && Extends(m, m')
      invariant SetOk(cur, |older|, links') && SetOk(next, |older| + 1, links')
      invariant forall k :: 0 <= k < |older| ==> SetOk(older[k], k, links')
      invariant cur0 <= cur && next0 <= next && links.Keys <= links'.Keys
      invariant InRange(m', cur, skip) && InRange(m', next, skip) && AllInRange(m', older, skip)
      invariant Processed(m', older, skip, scan, cur[..j], cur, next)
      invariant Supported(m', older, scan, |cur0|, |next0|, cur, next)
      invariant Grown(m', SetVia(older, cur, scan), links, links')
      invariant Owned(links', cur, |older|) && Owned(links', next, |older| + 1)
      decreases fuel - j
    {
      if j == fuel {
        return m', links', cur, next, Failed(OutOfFuel);
      }
      var m1, cur1, next1, links1;
      m1, cur1, next1, links1, r := ProcessItem(newrules, m', links', older, skip, scan, cur, next, j);
      SupportedStep(m', m1, older, scan, |cur0|, |next0|, cur, next, cur1, next1, j);
      SetRecorded(m', m1, older, scan, cur, cur1, j, links, links', links1);
      if r.Failed? {
        assert cur[j] in cur;
        return m1, links1, cur1, next1, r;
      }
      m', cur, next, links' := m1, cur1, next1, links1;
      j := j + 1;
    }
    assert cur[..j] == cur;
    r := Done;
  }

  // ---------------------------------------------------------------------
  // The loop of parse over the tokens
  // ---------------------------------------------------------------------

  /** The first Earley set as `parse` starts it: `[(1, 0), (2, 0)]`. */
  const FIRST_SET: seq<EItem> := [EItem(1, 0), EItem(2, 0)]

  /** The items of the first set whose state does not exist among `n` states. */
  function StaleItems(n: nat): (skip: seq<EItem>)
    ensures forall x :: x in skip <==> x in FIRST_SET && x.state >= n
  {
    (if n <= 1 then [EItem(1, 0)] else []) + (if n <= 2 then [EItem(2, 0)] else [])
  }

  /** The token `makeSet` scans into set `k + 1`: token `k`, or `None` after the last one. */
  function TokenAt(tokens: seq<Token>, k: nat): Option<Token> {
    if k < |tokens| then Some(tokens[k]) else None
  }

  /** The first `n` sets have been closed by `makeSet` over their tokens. */
  ghost predicate SetsDone(m: Machine, sets: seq<seq<EItem>>, n: nat, skip: seq<EItem>, tokens: seq<Token>,
                           typestring: Token -> Option<Symbol>) {
    forall k :: 0 <= k < n ==> SetDone(m, sets, k, skip, tokens, typestring)
  }

  /** Set `k` has been closed by `makeSet` over token `k`, scanning into set `k + 1`. */
  ghost predicate SetDone(m: Machine, sets: seq<seq<EItem>>, k: nat, skip: seq<EItem>, tokens: seq<Token>,
                          typestring: Token -> Option<Symbol>) {
    k + 1 < |sets| && Processed(m, sets[..k], skip, ScanOf(TokenAt(tokens, k), typestring), sets[k], sets[k], sets[k + 1])
  }

  /**
   * Item `n` of set `k` has a cause: it is one of the two items the first
   * set starts with, the scan over token `k - 1` of an item of set `k - 1`,
   * the completion of an item before it in set `k`, or the ε-successor of
   * one.
   */
  ghost predicate ItemCaused(m: Machine, sets: seq<seq<EItem>>, k: nat, n: nat, tokens: seq<Token>,
                             typestring: Token -> Option<Symbol>)
    requires k < |sets| && n < |sets[k]|
  {
    || (k == 0 && n < |FIRST_SET| && sets[0][n] == FIRST_SET[n])
    || (0 < k && ScannedFromSet(m, sets[k - 1], ScanOf(TokenAt(tokens, k - 1), typestring), sets[k][n]))
    || (exists p :: 0 <= p < n && Justifies(m, Completing(sets[..k], sets[k][p]), sets[k][n]))
    || EpsBefore(m, sets[k], n, k)
  }

  /** Every item of every set has a cause: the sets hold nothing but what the Earley steps derive. */
  ghost predicate SetsCaused(m: Machine, sets: seq<seq<EItem>>, tokens: seq<Token>, typestring: Token -> Option<Symbol>) {
    forall k, n :: 0 <= k < |sets| && 0 <= n < |sets[k]| ==> ItemCaused(m, sets, k, n, tokens, typestring)
  }

  /**
   * Link `l` under `key` is one `makeSet` recorded: the scan of an item of
   * set `key.i - 1` over token `key.i - 1`, or a completion in set `key.i`.
   */
  ghost predicate LinkCaused(m: Machine, sets: seq<seq<EItem>>, key: Ptr, l: Link, tokens: seq<Token>,
                             typestring: Token -> Option<Symbol>)
    requires key.i < |sets|
  {
    || (0 < key.i && SetLink(m, sets[..key.i - 1], sets[key.i - 1], ScanOf(TokenAt(tokens, key.i - 1), typestring), key, l))
    || SetLink(m, sets[..key.i], sets[key.i], ScanOf(TokenAt(tokens, key.i), typestring), key, l)
  }

  /** The key names an item of its set, and each of its links was recorded by `makeSet`. */
  ghost predicate KeyCaused(m: Machine, links: Links, sets: seq<seq<EItem>>, key: Ptr, tokens: seq<Token>,
                            typestring: Token -> Option<Symbol>)
    requires key in links
  {
    && key.i < |sets| && key.item in sets[key.i]
    && forall n :: 0 <= n < |links[key]| ==> LinkCaused(m, sets, key, links[key][n], tokens, typestring)
  }

  /** Every key of the links has a cause. */
  ghost predicate LinksCaused(m: Machine, links: Links, sets: seq<seq<EItem>>, tokens: seq<Token>,
                              typestring: Token -> Option<Symbol>) {
    forall key :: key in links ==> KeyCaused(m, links, sets, key, tokens, typestring)
  }

  /** With caused links, the keys of set `i` belong to its items, as `makeSet` requires. */
  lemma LinksOwned(m: Machine, links: Links, sets: seq<seq<EItem>>, i: nat, tokens: seq<Token>,
                   typestring: Token -> Option<Symbol>)
    requires LinksCaused(m, links, sets, tokens, typestring) && i < |sets|
    ensures Owned(links, sets[i], i)
  {
    forall key | key in links && key.i == i ensures key.item in sets[i] {
      assert KeyCaused(m, links, sets, key, tokens, typestring);
    }
  }

  /** A `makeSet` link stays one while the automaton and the set it was found in grow. */
  lemma SetLinkGrow(m: Machine, m': Machine, older: seq<seq<EItem>>, cur: seq<EItem>, cur': seq<EItem>, scan: Scan,
                    key: Ptr, l: Link)
    requires Extends(m, m') && cur <= cur' && SetLink(m, older, cur, scan, key, l)
    ensures SetLink(m', older, cur', scan, key, l)
  {
    LinkViaMono(m, m', SetVia(older, cur, scan), key, l);
    assert l.pred.item in cur ==> l.pred.item in cur';
    assert l.cause.Some? && l.cause.value.item in cur ==> l.cause.value.item in cur';
  }

  /** A caused link stays caused while the automaton grows and set `n` grows, the sets before it kept. */
  lemma LinkCausedMono(m: Machine, m': Machine, sets: seq<seq<EItem>>, sets': seq<seq<EItem>>, n: nat, key: Ptr, l: Link,
                       tokens: seq<Token>, typestring: Token -> Option<Symbol>)
    requires Extends(m, m') && n < |sets| && n < |sets'| && sets'[..n] == sets[..n] && sets[n] <= sets'[n]
    requires key.i <= n && LinkCaused(m, sets, key, l, tokens, typestring)
    ensures LinkCaused(m', sets', key, l, tokens, typestring)
  {
    var k := key.i;
    assert sets'[..k] == sets'[..n][..k] == sets[..n][..k] == sets[..k];
    if 0 < k && SetLink(m, sets[..k - 1], sets[k - 1], ScanOf(TokenAt(tokens, k - 1), typestring), key, l) {
      assert sets'[..k - 1] == sets'[..k][..k - 1] == sets[..k][..k - 1] == sets[..k - 1];
      assert sets'[k - 1] == sets'[..k][k - 1] == sets[..k][k - 1] == sets[k - 1];
      SetLinkGrow(m, m', sets[..k - 1], sets[k - 1], sets'[k - 1], ScanOf(TokenAt(tokens, k - 1), typestring), key, l);
    } else {
      assert sets[k] <= sets'[k] by {
        if k < n {
          assert sets'[k] == sets'[..n][k] == sets[..n][k] == sets[k];
        }
      }
      SetLinkGrow(m, m', sets[..k], sets[k], sets'[k], ScanOf(TokenAt(tokens, k), typestring), key, l);
    }
  }

  /**
   * Caused links stay caused while the automaton grows and set `n` grows,
   * the sets before it kept and the sets after it empty.
   */
  lemma LinksCausedMono(m: Machine, m': Machine, links: Links, sets: seq<seq<EItem>>, sets': seq<seq<EItem>>, n: nat,
                        tokens: seq<Token>, typestring: Token -> Option<Symbol>)
    requires Extends(m, m') && n < |sets| && n < |sets'| && sets'[..n] == sets[..n] && sets[n] <= sets'[n]
    requires forall k :: n < k < |sets| ==> sets[k] == []
    requires LinksCaused(m, links, sets, tokens, typestring)
    ensures LinksCaused(m', links, sets', tokens, typestring)
  {
    forall key | key in links ensures KeyCaused(m', links, sets', key, tokens, typestring) {
      assert KeyCaused(m, links, sets, key, tokens, typestring);
      assert key.i <= n && key.item in sets'[key.i] by {
        if key.i < n {
          assert sets'[key.i] == sets'[..n][key.i] == sets[..n][key.i] == sets[key.i];
        }
      }
      forall j | 0 <= j < |links[key]| ensures LinkCaused(m', sets', key, links[key][j], tokens, typestring) {
        LinkCausedMono(m, m', sets, sets', n, key, links[key][j], tokens, typestring);
      }
    }
  }

  /**
   * `makeSet` on the last two sets, the last one empty, keeps the links
   * caused: the old links by their old causes, the new ones because
   * `makeSet` records nothing but scans and completions of set `i`.
   */
  lemma CloseLinks(m: Machine, m': Machine, links: Links, links': Links, sets: seq<seq<EItem>>, older: seq<seq<EItem>>,
                   cur: seq<EItem>, next: seq<EItem>, tokens: seq<Token>, typestring: Token -> Option<Symbol>)
    requires Extends(m, m') && |sets| == |older| + 2 && older == sets[..|older|] && sets[|older| + 1] == []
    requires sets[|older|] <= cur && LinksCaused(m, links, sets, tokens, typestring)
    requires Grown(m', SetVia(older, cur, ScanOf(TokenAt(tokens, |older|), typestring)), links, links')
    requires Owned(links', cur, |older|) && Owned(links', next, |older| + 1)
    ensures LinksCaused(m', links', older + [cur, next], tokens, typestring)
  {
    var i := |older|;
    var sets' := older + [cur, next];
    Replaced(sets, i, cur, next);
    LinksCausedMono(m, m', links, sets, sets', i, tokens, typestring);
    forall key | key in links' ensures KeyCaused(m', links', sets', key, tokens, typestring) {
      CloseKey(m', links, links', sets', older, cur, next, key, tokens, typestring);
    }
  }

  /** One key of the links after `makeSet` on set `i`. */
  lemma CloseKey(m: Machine, links: Links, links': Links, sets: seq<seq<EItem>>, older: seq<seq<EItem>>,
                 cur: seq<EItem>, next: seq<EItem>, key: Ptr, tokens: seq<Token>, typestring: Token -> Option<Symbol>)
    requires sets == older + [cur, next] && LinksCaused(m, links, sets, tokens, typestring)
    requires Grown(m, SetVia(older, cur, ScanOf(TokenAt(tokens, |older|), typestring)), links, links')
    requires Owned(links', cur, |older|) && Owned(links', next, |older| + 1)
    requires key in links'
    ensures KeyCaused(m, links', sets, key, tokens, typestring)
  {
    var i := |older|;
    var v := SetVia(older, cur, ScanOf(TokenAt(tokens, i), typestring));
    if key.i != i && key.i != i + 1 {
      GrownElsewhere(m, v, links, links', key);
      assert KeyCaused(m, links, sets, key, tokens, typestring);
    } else {
      Replaced(sets, i, cur, next);
      assert sets[..i] == older;
      assert GrownAt(m, v, links, links', key);
      var before := if key in links then links[key] else [];
      assert key in links ==> KeyCaused(m, links, sets, key, tokens, typestring);
      forall j | 0 <= j < |links'[key]| ensures LinkCaused(m, sets, key, links'[key][j], tokens, typestring) {
        if j < |before| {
          assert links'[key][j] == links[key][j];
        } else {
          assert LinkVia(m, v, key, links'[key][j]);
        }
      }
    }
  }

  /** A cause survives a grown automaton, a set grown at its end and changes to the later sets. */
  lemma ItemCausedMono(m: Machine, m': Machine, sets: seq<seq<EItem>>, sets': seq<seq<EItem>>, k: nat, n: nat,
                       tokens: seq<Token>, typestring: Token -> Option<Symbol>)
    requires Extends(m, m') && k < |sets| && k < |sets'| && sets[..k] == sets'[..k] && sets[k] <= sets'[k]
    requires n < |sets[k]| && ItemCaused(m, sets, k, n, tokens, typestring)
    ensures ItemCaused(m', sets', k, n, tokens, typestring)
  {
    var x := sets[k][n];
    assert sets'[k][n] == x;
    if k == 0 && n < |FIRST_SET| && sets[0][n] == FIRST_SET[n] {
    } else if 0 < k && ScannedFromSet(m, sets[k - 1], ScanOf(TokenAt(tokens, k - 1), typestring), x) {
      ScannedFromSetMono(m, m', sets[k - 1], ScanOf(TokenAt(tokens, k - 1), typestring), x);
      assert sets'[k - 1] == sets'[..k][k - 1] == sets[..k][k - 1] == sets[k - 1];
    } else if exists p :: 0 <= p < n && Justifies(m, Completing(sets[..k], sets[k][p]), x) {
      var p :| 0 <= p < n && Justifies(m, Completing(sets[..k], sets[k][p]), x);
      JustifiesMono(m, m', Completing(sets[..k], sets[k][p]), x);
      assert sets'[k][p] == sets[k][p];
    } else {
      EpsBeforeMono(m, m', sets[k], sets'[k], n, k);
    }
  }

  /** The loop of `parse` starts from causes alone. */
  lemma StartCaused(m: Machine, tokens: seq<Token>, typestring: Token -> Option<Symbol>)
    ensures SetsCaused(m, [FIRST_SET], tokens, typestring)
  {
  }

  /** `sets.append([])` adds an empty set, which needs no causes. */
  lemma OpenCaused(m: Machine, sets: seq<seq<EItem>>, tokens: seq<Token>, typestring: Token -> Option<Symbol>)
    requires SetsCaused(m, sets, tokens, typestring)
    ensures SetsCaused(m, sets + [[]], tokens, typestring)
  {
    var grown := sets + [[]];
    forall k, n | 0 <= k < |grown| && 0 <= n < |grown[k]| ensures ItemCaused(m, grown, k, n, tokens, typestring) {
      assert k < |sets| && grown[k] == sets[k];
      assert grown[..k] == sets[..k];
      ItemCausedMono(m, m, sets, grown, k, n, tokens, typestring);
    }
  }

  /**
   * `makeSet` on the last two sets, the last one empty, keeps every item
   * caused: the old items by their old causes, the new ones by what
   * `Supported` gives.
   */
  lemma {:induction false} CloseCaused(m: Machine, m': Machine, sets: seq<seq<EItem>>, older: seq<seq<EItem>>,
                                       cur: seq<EItem>, next: seq<EItem>, tokens: seq<Token>,
                                       typestring: Token -> Option<Symbol>)
    requires Extends(m, m') && |sets| == |older| + 2 && older == sets[..|older|] && sets[|older| + 1] == []
    requires sets[|older|] <= cur && SetsCaused(m, sets, tokens, typestring)
    requires Supported(m', older, ScanOf(TokenAt(tokens, |older|), typestring), |sets[|older|]|, 0, cur, next)
    ensures SetsCaused(m', older + [cur, next], tokens, typestring)
  {
    var i := |older|;
    var sets' := older + [cur, next];
    Replaced(sets, i, cur, next);
    forall k, n | 0 <= k < |sets'| && 0 <= n < |sets'[k]| ensures ItemCaused(m', sets', k, n, tokens, typestring) {
      if k < i {
        assert sets'[k] == sets[k] && sets'[..k] == sets[..k];
        ItemCausedMono(m, m', sets, sets', k, n, tokens, typestring);
      } else if k == i && n < |sets[i]| {
        ItemCausedMono(m, m', sets, sets', k, n, tokens, typestring);
      } else if k == i {
        assert sets'[..i] == older && sets'[i] == cur;
        assert CompletionCaused(m', older, cur, n);
      } else {
        assert sets'[i] == cur && sets'[i + 1] == next && k == i + 1;
        assert ScanCaused(m', older, ScanOf(TokenAt(tokens, i), typestring), cur, next, n);
      }
    }
  }

  /**
   * The closed sets stay closed while the automaton grows, the sets after
   * them change and set `n`, the last one they scanned into, grows.
   */
  lemma SetsDoneGrow(newrules: NewRules, m: Machine, m': Machine, sets: seq<seq<EItem>>, sets': seq<seq<EItem>>, n: nat,
                     skip: seq<EItem>, tokens: seq<Token>, typestring: Token -> Option<Symbol>)
    requires Good(newrules, m) && Extends(m, m') && AllInRange(m, sets, skip)
    requires n < |sets| && n < |sets'| && sets[..n] == sets'[..n] && forall x :: x in sets[n] ==> x in sets'[n]
    requires SetsDone(m, sets, n, skip, tokens, typestring)
    ensures SetsDone(m', sets', n, skip, tokens, typestring)
  {
    forall k | 0 <= k < n
      ensures SetDone(m', sets', k, skip, tokens, typestring)
    {
      assert SetDone(m, sets, k, skip, tokens, typestring);
      assert sets'[..k] == sets[..n][..k] == sets[..k];
      assert sets'[k] == sets[..n][k] == sets[k];
      if k + 1 < n {
        assert sets'[k + 1] == sets[..n][k + 1] == sets[k + 1];
      }
      assert AllInRange(m, sets[..k], skip) by {
        forall j | 0 <= j < k ensures InRange(m, sets[..k][j], skip) {
          assert sets[..k][j] == sets[j];
        }
      }
      assert InRange(m, sets[k], skip);
      ProcessedMono(newrules, m, m', sets[..k], skip, ScanOf(TokenAt(tokens, k), typestring),
                    sets[k], sets[k], sets[k], sets[k + 1], sets'[k + 1]);
    }
  }

  /** One more set closed. */
  lemma SetsDoneNext(m: Machine, sets: seq<seq<EItem>>, n: nat, skip: seq<EItem>, tokens: seq<Token>,
                     typestring: Token -> Option<Symbol>)
    requires SetsDone(m, sets, n, skip, tokens, typestring) && n + 1 < |sets|
    requires Processed(m, sets[..n], skip, ScanOf(TokenAt(tokens, n), typestring), sets[n], sets[n], sets[n + 1])
    ensures SetsDone(m, sets, n + 1, skip, tokens, typestring)
  {
    assert SetDone(m, sets, n, skip, tokens, typestring);
  }

  /**
   * `sets.append([])` before set `i` is closed: closed sets stay closed,
   * and an empty set `i`, where the loop stops, counts as closed.
   */
  lemma Open(newrules: NewRules, m: Machine, links: Links, sets: seq<seq<EItem>>, i: nat, skip: seq<EItem>, tokens: seq<Token>,
             typestring: Token -> Option<Symbol>)
    requires Good(newrules, m) && |sets| == i + 1 && AllInRange(m, sets, skip)
    requires (forall k :: 0 <= k < |sets| ==> SetOk(sets[k], k, links)) && SetsDone(m, sets, i, skip, tokens, typestring)
    ensures AllInRange(m, sets + [[]], skip) && forall k :: 0 <= k < |sets| + 1 ==> SetOk((sets + [[]])[k], k, links)
    ensures forall k :: 0 <= k < |sets| ==> (sets + [[]])[k] == sets[k]
    ensures SetsDone(m, sets + [[]], i, skip, tokens, typestring)
    ensures sets[i] == [] ==> SetsDone(m, sets + [[]], i + 1, skip, tokens, typestring)
    ensures LinksCaused(m, links, sets, tokens, typestring) ==> LinksCaused(m, links, sets + [[]], tokens, typestring)
  {
    var grown := sets + [[]];
    if LinksCaused(m, links, sets, tokens, typestring) {
      LinksCausedMono(m, m, links, sets, grown, i, tokens, typestring);
    }
    assert forall k :: 0 <= k < |sets| ==> grown[k] == sets[k];
    assert SetOk(grown[i + 1], i + 1, links);
    assert sets[..i] == grown[..i];
    SetsDoneGrow(newrules, m, m, sets, grown, i, skip, tokens, typestring);
    if sets[i] == [] {
      SetsDoneNext(m, grown, i, skip, tokens, typestring);
    }
  }

  /** The sets after `makeSet(token, sets, i)` replaced sets `i` and `i + 1`. */
  lemma Replaced(sets: seq<seq<EItem>>, i: nat, cur: seq<EItem>, next: seq<EItem>)
    requires i < |sets|
    ensures (sets[..i] + [cur, next])[..i] == sets[..i]
    ensures (sets[..i] + [cur, next])[i] == cur && (sets[..i] + [cur, next])[i + 1] == next
    ensures |sets[..i] + [cur, next]| == i + 2
  {
  }

  /**
   * Where the loop of `parse` stands before token `i`: `i + 1` sets, the
   * first starting with `[(1, 0), (2, 0)]`, all consistent with the links
   * and the automaton, none of them empty, all but the last closed.
   */
  ghost predicate Progress(newrules: NewRules, m: Machine, links: Links, sets: seq<seq<EItem>>, i: nat, skip: seq<EItem>,
                           tokens: seq<Token>, typestring: Token -> Option<Symbol>) {
    && |sets| == i + 1 && FIRST_SET <= sets[0]
    && Good(newrules, m)
    && (forall k :: 0 <= k < |sets| ==> SetOk(sets[k], k, links))
    && AllInRange(m, sets, skip)
    && (forall k :: 0 <= k < i ==> sets[k] != [])
    && SetsDone(m, sets, i, skip, tokens, typestring)
    && SetsCaused(m, sets, tokens, typestring)
    && LinksCaused(m, links, sets, tokens, typestring)
  }

  /**
   * The loop of `parse` stopped at token `last` (never the first), whose
   * set came out empty after `[]` had been appended for the next one.
   */
  ghost predicate Stopped(newrules: NewRules, m: Machine, links: Links, sets: seq<seq<EItem>>, last: nat, skip: seq<EItem>,
                          tokens: seq<Token>, typestring: Token -> Option<Symbol>) {
    && 0 < last < |tokens| && |sets| == last + 2 && FIRST_SET <= sets[0]
    && Good(newrules, m)
    && (forall k :: 0 <= k < |sets| ==> SetOk(sets[k], k, links))
    && sets[last] == [] && sets[last + 1] == [] && (forall k :: 0 <= k < last ==> sets[k] != [])
    && SetsDone(m, sets, last + 1, skip, tokens, typestring)
    && SetsCaused(m, sets, tokens, typestring)
    && LinksCaused(m, links, sets, tokens, typestring)
  }

  /**
   * The loop of `parse`: `sets = [[(1, 0), (2, 0)]]` and fresh links; for
   * each token `i` a new empty set, a stop as soon as set `i` is empty,
   * and otherwise `makeSet(token, sets, i)`; after the last token, one more
   * set and `makeSet(None, sets, len(tokens))`. `last` is the final value
   * of the loop variable `i`.
   */
  method Recognise(newrules: NewRules, m: Machine, tokens: seq<Token>, typestring: Token -> Option<Symbol>, fuel: nat)
    returns (m': Machine, links: Links, sets: seq<seq<EItem>>, last: nat, broke: bool, r: Outcome)
    requires Good(newrules, m)
    ensures Good(newrules, m') && Extends(m, m')
    ensures r.Done? ==> Recognised(m, m', links, sets, last, broke, tokens, typestring)
    ensures r.Failed? ==> r.error == OutOfFuel || (r.error == Crash("KeyError") && StaleItems(|m.states|) != [])
  {
    var skip := StaleItems(|m.states|);
    var i;
    m', links, sets, i, broke, r := ScanTokens(newrules, m, tokens, typestring, fuel);
    if broke || r.Failed? {
      last := i;
      if r.Done? {
        StoppedRecognised(newrules, m, m', links, sets, last, tokens, typestring);
      }
      return;
    }
    last := if i == 0 then 0 else i - 1;
    var m1, links1, sets1;
    m1, links1, sets1, r := Finish(newrules, m', links, sets, i, skip, tokens, typestring, fuel);
    ExtendsTrans(m, m', m1);
    if r.Done? {
      FinishedRecognised(newrules, m, m1, links1, sets1, last, tokens, typestring);
    }
    m', links, sets := m1, links1, sets1;
  }

  /**
   * What the loop of `parse` leaves when it raised nothing: at least two
   * sets, the first starting with `(1, 0), (2, 0)`, every set sound for
   * its links, every set but the last closed; after a `break` at token
   * `last` the last two sets are empty, otherwise there is one set per
   * token and two more.
   */
  ghost predicate Recognised(m: Machine, m': Machine, links: Links, sets: seq<seq<EItem>>, last: nat, broke: bool,
                             tokens: seq<Token>, typestring: Token -> Option<Symbol>) {
    && |sets| >= 2 && FIRST_SET <= sets[0]
    && (forall k :: 0 <= k < |sets| ==> SetOk(sets[k], k, links))
    && (broke ==>
          && 0 < last < |tokens| && |sets| == last + 2 && sets[last] == [] && sets[last + 1] == []
          && forall k :: 0 <= k < last ==> sets[k] != [])
    && (!broke ==>
          && |sets| == |tokens| + 2 && last == (if |tokens| == 0 then 0 else |tokens| - 1)
          && forall k :: 0 <= k < |tokens| ==> sets[k] != [])
    && SetsDone(m', sets, |sets| - 1, StaleItems(|m.states|), tokens, typestring)
    && SetsCaused(m', sets, tokens, typestring)
    && LinksCaused(m', links, sets, tokens, typestring)
  }

  lemma StoppedRecognised(newrules: NewRules, m: Machine, m': Machine, links: Links, sets: seq<seq<EItem>>, last: nat,
                          tokens: seq<Token>, typestring: Token -> Option<Symbol>)
    requires Stopped(newrules, m', links, sets, last, StaleItems(|m.states|), tokens, typestring)
    ensures Recognised(m, m', links, sets, last, true, tokens, typestring)
  {
  }

  lemma FinishedRecognised(newrules: NewRules, m: Machine, m': Machine, links: Links, sets: seq<seq<EItem>>, last: nat,
                           tokens: seq<Token>, typestring: Token -> Option<Symbol>)
    requires |sets| == |tokens| + 2 && FIRST_SET <= sets[0] && forall k :: 0 <= k < |sets| ==> SetOk(sets[k], k, links)
    requires forall k :: 0 <= k < |tokens| ==> sets[k] != []
    requires last == (if |tokens| == 0 then 0 else |tokens| - 1)
    requires SetsDone(m', sets, |tokens| + 1, StaleItems(|m.states|), tokens, typestring)
    requires SetsCaused(m', sets, tokens, typestring) && LinksCaused(m', links, sets, tokens, typestring)
    ensures Recognised(m, m', links, sets, last, false, tokens, typestring)
  {
  }

  /** The `for` loop of `parse` over the tokens, up to its end or its `break`. */
  method ScanTokens(newrules: NewRules, m: Machine, tokens: seq<Token>, typestring: Token -> Option<Symbol>, fuel: nat)
    returns (m': Machine, links: Links, sets: seq<seq<EItem>>, i: nat, broke: bool, r: Outcome)
    requires Good(newrules, m)
    ensures Good(newrules, m') && Extends(m, m')
    ensures r.Done? && broke ==> Stopped(newrules, m', links, sets, i, StaleItems(|m.states|), tokens, typestring)
    ensures r.Done? && !broke ==> i == |tokens| && Progress(newrules, m', links, sets, i, StaleItems(|m.states|), tokens, typestring)
    ensures r.Failed? ==> r.error == OutOfFuel || (r.error == Crash("KeyError") && StaleItems(|m.states|) != [])
  {
    var skip := StaleItems(|m.states|);
    m', links, sets := m, map[], [FIRST_SET];
    broke, r := false, Done;
    Start(newrules, m, tokens, typestring);
    i := 0;
    while i < |tokens|
      invariant i <= |tokens| && Extends(m, m') && r.Done?
      invariant Progress(newrules, m', links, sets, i, skip, tokens, typestring)
    {
      var m1, links1, sets1, stop;
      m1, links1, sets1, stop, r := Advance(newrules, m', links, sets, i, skip, tokens, typestring, fuel);
      ExtendsTrans(m, m', m1);
      m', links, sets := m1, links1, sets1;
      if stop {
        return m', links, sets, i, true, Done;
      }
      if r.Failed? {
        return;
      }
      i := i + 1;
    }
  }

  /** The loop of `parse` starts from `[[(1, 0), (2, 0)]]` and no links. */
  lemma Start(newrules: NewRules, m: Machine, tokens: seq<Token>, typestring: Token -> Option<Symbol>)
    requires Good(newrules, m)
    ensures Progress(newrules, m, map[], [FIRST_SET], 0, StaleItems(|m.states|), tokens, typestring)
  {
    assert Distinct(FIRST_SET);
    StartCaused(m, tokens, typestring);
  }

  /** One round of the loop of `parse` for token `i`. */
  method Advance(newrules: NewRules, m: Machine, links: Links, sets: seq<seq<EItem>>, i: nat, skip: seq<EItem>,
                 tokens: seq<Token>, typestring: Token -> Option<Symbol>, fuel: nat)
    returns (m': Machine, links': Links, sets': seq<seq<EItem>>, stop: bool, r: Outcome)
    requires i < |tokens| && Progress(newrules, m, links, sets, i, skip, tokens, typestring)
    ensures Good(newrules, m') && Extends(m, m')
    ensures stop ==> r.Done? && Stopped(newrules, m', links', sets', i, skip, tokens, typestring)
    ensures !stop && r.Done? ==> Progress(newrules, m', links', sets', i + 1, skip, tokens, typestring)
    ensures r.Failed? ==> r.error == OutOfFuel || (r.error == Crash("KeyError") && skip != [])
  {
    if sets[i] == [] {
      StopAt(newrules, m, links, sets, i, skip, tokens, typestring);
      return m, links, sets + [[]], true, Done;
    }
    Open(newrules, m, links, sets, i, skip, tokens, typestring);
    OpenCaused(m, sets, tokens, typestring);
    var before := sets + [[]];
    m', links', sets', r := CloseSet(newrules, m, links, before, skip, tokens, typestring, fuel);
    stop := false;
    if r.Done? {
      Proceed(newrules, m, links, sets, before, i, skip, tokens, typestring, m', links', sets');
    }
  }

  /** An empty set `i` stops the loop of `parse`. */
  lemma StopAt(newrules: NewRules, m: Machine, links: Links, sets: seq<seq<EItem>>, i: nat, skip: seq<EItem>,
               tokens: seq<Token>, typestring: Token -> Option<Symbol>)
    requires i < |tokens| && Progress(newrules, m, links, sets, i, skip, tokens, typestring) && sets[i] == []
    ensures Stopped(newrules, m, links, sets + [[]], i, skip, tokens, typestring)
  {
    Open(newrules, m, links, sets, i, skip, tokens, typestring);
    OpenCaused(m, sets, tokens, typestring);
  }

  /** Closing a set `i` that was not empty brings the loop of `parse` to token `i + 1`. */
  lemma Proceed(newrules: NewRules, m: Machine, links: Links, sets: seq<seq<EItem>>, before: seq<seq<EItem>>, i: nat,
                skip: seq<EItem>, tokens: seq<Token>, typestring: Token -> Option<Symbol>,
                m': Machine, links': Links, sets': seq<seq<EItem>>)
    requires Progress(newrules, m, links, sets, i, skip, tokens, typestring) && sets[i] != [] && before == sets + [[]]
    requires Good(newrules, m') && |sets'| == i + 2
    requires sets'[..i] == before[..i] && before[i] <= sets'[i]
    requires forall k :: 0 <= k < |sets'| ==> SetOk(sets'[k], k, links')
    requires AllInRange(m', sets', skip) && SetsDone(m', sets', i + 1, skip, tokens, typestring)
    requires SetsCaused(m', sets', tokens, typestring) && LinksCaused(m', links', sets', tokens, typestring)
    ensures Progress(newrules, m', links', sets', i + 1, skip, tokens, typestring)
  {
    assert before[0] == sets[0];
    assert forall k :: 0 <= k <= i ==> before[k] == sets[k];
    AfterClose(before, sets', i + 1);
  }

  /** After the last token: one more set, and `makeSet(None, sets, len(tokens))`. */
  method Finish(newrules: NewRules, m: Machine, links: Links, sets: seq<seq<EItem>>, i: nat, skip: seq<EItem>,
                tokens: seq<Token>, typestring: Token -> Option<Symbol>, fuel: nat)
    returns (m': Machine, links': Links, sets': seq<seq<EItem>>, r: Outcome)
    requires Progress(newrules, m, links, sets, i, skip, tokens, typestring)
    ensures Good(newrules, m') && Extends(m, m')
    ensures |sets'| == i + 2 && FIRST_SET <= sets'[0] && forall k :: 0 <= k < |sets'| ==> SetOk(sets'[k], k, links')
    ensures forall k :: 0 <= k < i ==> sets'[k] != []
    ensures r.Done? ==> SetsDone(m', sets', i + 1, skip, tokens, typestring)
    ensures SetsCaused(m', sets', tokens, typestring) && LinksCaused(m', links', sets', tokens, typestring)
    ensures r.Failed? ==> r.error == OutOfFuel || (r.error == Crash("KeyError") && skip != [])
  {
    Open(newrules, m, links, sets, i, skip, tokens, typestring);
    OpenCaused(m, sets, tokens, typestring);
    ghost var before := sets + [[]];
    m', links', sets', r := CloseSet(newrules, m, links, sets + [[]], skip, tokens, typestring, fuel);
    AfterClose(before, sets', i);
  }

  /** Closing the last but one set keeps the first set's start and the sets that were not empty. */
  lemma AfterClose(sets: seq<seq<EItem>>, sets': seq<seq<EItem>>, n: nat)
    requires |sets| == |sets'| >= 2 && n <= |sets| - 1 && FIRST_SET <= sets[0]
    requires sets'[..|sets| - 2] == sets[..|sets| - 2] && sets[|sets| - 2] <= sets'[|sets| - 2]
    requires forall k :: 0 <= k < n ==> sets[k] != []
    ensures FIRST_SET <= sets'[0] && forall k :: 0 <= k < n ==> sets'[k] != []
  {
    var i := |sets| - 2;
    forall k | 0 <= k < i ensures sets'[k] == sets[k] {
      assert sets'[k] == sets'[..i][k];
    }
  }

  /**
   * `makeSet(token, sets, i)` for the last two sets, `i` and the empty
   * `i + 1`: each set before `i` stays as it is, set `i` grows, and on
   * success set `i` joins the closed sets.
   */
  method CloseSet(newrules: NewRules, m: Machine, links: Links, sets: seq<seq<EItem>>, skip: seq<EItem>, tokens: seq<Token>,
                  typestring: Token -> Option<Symbol>, fuel: nat)
    returns (m': Machine, links': Links, sets': seq<seq<EItem>>, r: Outcome)
    requires Good(newrules, m) && |sets| >= 2 && sets[|sets| - 1] == []
    requires forall k :: 0 <= k < |sets| ==> SetOk(sets[k], k, links)
    requires AllInRange(m, sets, skip) && SetsDone(m, sets, |sets| - 2, skip, tokens, typestring)
    requires SetsCaused(m, sets, tokens, typestring) && LinksCaused(m, links, sets, tokens, typestring)
    ensures Good(newrules, m') && Extends(m, m')
    ensures |sets'| == |sets| && sets'[..|sets| - 2] == sets[..|sets| - 2] && sets[|sets| - 2] <= sets'[|sets| - 2]
    ensures forall k :: 0 <= k < |sets'| ==> SetOk(sets'[k], k, links')
    ensures AllInRange(m', sets', skip)
    ensures r.Done? ==> SetsDone(m', sets', |sets| - 1, skip, tokens, typestring)
    ensures SetsCaused(m', sets', tokens, typestring) && LinksCaused(m', links', sets', tokens, typestring)
    ensures r.Failed? ==> r.error == OutOfFuel || (r.error == Crash("KeyError") && skip != [])
  {
    var i := |sets| - 2;
    var older, cur, next := sets[..i], sets[i], sets[i + 1];
    assert forall k :: 0 <= k < i ==> older[k] == sets[k];
    LinksOwned(m, links, sets, i, tokens, typestring);
    LinksOwned(m, links, sets, i + 1, tokens, typestring);
    m', links', cur, next, r := MakeSet(newrules, m, links, older, cur, next, skip, TokenAt(tokens, i), typestring, fuel);
    sets' := older + [cur, next];
    Closed(newrules, m, m', links, links', sets, older, cur, next, skip, tokens, typestring, r.Done?);
  }

  /** What `makeSet` on the last two sets gives: the sets stay consistent, closed and caused, and so do the links. */
  lemma Closed(newrules: NewRules, m: Machine, m': Machine, links: Links, links': Links, sets: seq<seq<EItem>>,
               older: seq<seq<EItem>>, cur: seq<EItem>, next: seq<EItem>, skip: seq<EItem>, tokens: seq<Token>,
               typestring: Token -> Option<Symbol>, done: bool)
    requires Good(newrules, m) && Extends(m, m') && |sets| == |older| + 2 && older == sets[..|older|]
    requires sets[|older| + 1] == [] && sets[|older|] <= cur
    requires AllInRange(m, sets, skip) && SetsDone(m, sets, |older|, skip, tokens, typestring)
    requires SetsCaused(m, sets, tokens, typestring) && LinksCaused(m, links, sets, tokens, typestring)
    requires forall k :: 0 <= k < |older| ==> SetOk(older[k], k, links')
    requires SetOk(cur, |older|, links') && SetOk(next, |older| + 1, links')
    requires AllInRange(m', older, skip) && InRange(m', cur, skip) && InRange(m', next, skip)
    requires done ==> Processed(m', older, skip, ScanOf(TokenAt(tokens, |older|), typestring), cur, cur, next)
    requires Supported(m', older, ScanOf(TokenAt(tokens, |older|), typestring), |sets[|older|]|, 0, cur, next)
    requires Grown(m', SetVia(older, cur, ScanOf(TokenAt(tokens, |older|), typestring)), links, links')
    requires Owned(links', cur, |older|) && Owned(links', next, |older| + 1)
    ensures |older + [cur, next]| == |sets| && (older + [cur, next])[..|older|] == older && sets[|older|] <= (older + [cur, next])[|older|]
    ensures forall k :: 0 <= k < |sets| ==> SetOk((older + [cur, next])[k], k, links')
    ensures AllInRange(m', older + [cur, next], skip)
    ensures done ==> SetsDone(m', older + [cur, next], |older| + 1, skip, tokens, typestring)
    ensures SetsCaused(m', older + [cur, next], tokens, typestring)
    ensures LinksCaused(m', links', older + [cur, next], tokens, typestring)
  {
    SetsClosed(newrules, m, m', links', sets, older, cur, next, skip, tokens, typestring, done);
    CloseCaused(m, m', sets, older, cur, next, tokens, typestring);
    CloseLinks(m, m', links, links', sets, older, cur, next, tokens, typestring);
  }

  /** What `makeSet` did to sets `i` and `i + 1`, seen from all the sets. */
  lemma SetsClosed(newrules: NewRules, m: Machine, m': Machine, links: Links, sets: seq<seq<EItem>>, older: seq<seq<EItem>>,
                   cur: seq<EItem>, next: seq<EItem>, skip: seq<EItem>, tokens: seq<Token>, typestring: Token -> Option<Symbol>,
                   done: bool)
    requires Good(newrules, m) && Extends(m, m') && |sets| == |older| + 2 && older == sets[..|older|]
    requires AllInRange(m, sets, skip) && SetsDone(m, sets, |older|, skip, tokens, typestring)
    requires sets[|older|] <= cur
    requires forall k :: 0 <= k < |older| ==> SetOk(older[k], k, links)
    requires SetOk(cur, |older|, links) && SetOk(next, |older| + 1, links)
    requires AllInRange(m', older, skip) && InRange(m', cur, skip) && InRange(m', next, skip)
    requires done ==> Processed(m', older, skip, ScanOf(TokenAt(tokens, |older|), typestring), cur, cur, next)
    ensures |older + [cur, next]| == |sets| && (older + [cur, next])[..|older|] == older && sets[|older|] <= (older + [cur, next])[|older|]
    ensures forall k :: 0 <= k < |sets| ==> SetOk((older + [cur, next])[k], k, links)
    ensures AllInRange(m', older + [cur, next], skip)
    ensures done ==> SetsDone(m', older + [cur, next], |older| + 1, skip, tokens, typestring)
  {
    var i := |older|;
    var sets' := older + [cur, next];
    Replaced(sets, i, cur, next);
    Reassembled(m', links, older, cur, next, skip);
    if done {
      SetsDoneGrow(newrules, m, m', sets, sets', i, skip, tokens, typestring);
      SetsDoneNext(m', sets', i, skip, tokens, typestring);
    }
  }

  /** The closed sets with the two just built after them keep the links and the state range. */
  lemma Reassembled(m: Machine, links: Links, older: seq<seq<EItem>>, cur: seq<EItem>, next: seq<EItem>, skip: seq<EItem>)
    requires forall k :: 0 <= k < |older| ==> SetOk(older[k], k, links)
    requires SetOk(cur, |older|, links) && SetOk(next, |older| + 1, links)
    requires AllInRange(m, older, skip) && InRange(m, cur, skip) && InRange(m, next, skip)
    ensures forall k :: 0 <= k < |older| + 2 ==> SetOk((older + [cur, next])[k], k, links)
    ensures AllInRange(m, older + [cur, next], skip)
  {
    var all := older + [cur, next];
    assert forall k :: 0 <= k < |older| ==> all[k] == older[k];
  }
}
