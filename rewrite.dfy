/**
 * `makeNewRules`: the epsilon-free grammar of Aycock and Horspool. Every
 * rule is copied once for each subset of its nullable-nonterminal positions,
 * with the symbols at those positions replaced by their `\e_`-tagged form;
 * the copy whose every position was replaced derives only the empty string
 * and gets a tagged lhs. `new2old` remembers which user rule each copy came
 * from.
 */
module Rewrite {
  import opened Grammar
  import opened Nullable

  /** A worklist entry `(rule, i, candidate, oldrule)`. */
  datatype Entry = Entry(rule: Rule, i: nat, candidate: bool, orig: Rule)

  /** `sym in self.rules and self.nullable[sym]`. */
  predicate NullableNT(rules: Rules, nullable: map<Symbol, bool>, sym: Symbol) {
    sym in rules && sym in nullable && nullable[sym]
  }

  /** A rule of the user grammar. */
  ghost predicate Original(rules: Rules, o: Rule) {
    o.lhs in rules && o in rules[o.lhs]
  }

  /** Every position of `r` differs from `o`: all were substituted. */
  ghost predicate AllSubstituted(o: Rule, r: Rule)
    requires |r.rhs| == |o.rhs|
  {
    forall j :: 0 <= j < |o.rhs| ==> r.rhs[j] != o.rhs[j]
  }

  /**
   * `r` is one of the copies of `o` the rewrite should produce: some
   * nullable-nonterminal positions tagged, the rest as in `o`, and the lhs
   * tagged exactly when every position was (an empty rhs included).
   */
  ghost predicate VariantOf(rules: Rules, nullable: map<Symbol, bool>, o: Rule, r: Rule) {
    && |r.rhs| == |o.rhs|
    && (forall j :: 0 <= j < |o.rhs| ==>
          r.rhs[j] == o.rhs[j] || (NullableNT(rules, nullable, o.rhs[j]) && r.rhs[j] == Tagged(o.rhs[j])))
    && r.lhs == (if AllSubstituted(o, r) then Tagged(o.lhs) else o.lhs)
  }

  /**
   * What an entry stands for: a copy of `old` tagged only before `i`, and
   * `candidate` set exactly when every position before `i` was tagged.
   */
  ghost predicate EntryOk(rules: Rules, nullable: map<Symbol, bool>, e: Entry) {
    && Original(rules, e.orig)
    && e.rule.lhs == e.orig.lhs
    && |e.rule.rhs| == |e.orig.rhs|
    && e.i <= |e.orig.rhs|
    && (forall j :: 0 <= j < e.i ==>
          e.rule.rhs[j] == e.orig.rhs[j] || (NullableNT(rules, nullable, e.orig.rhs[j]) && e.rule.rhs[j] == Tagged(e.orig.rhs[j])))
    && (forall j :: e.i <= j < |e.orig.rhs| ==> e.rule.rhs[j] == e.orig.rhs[j])
    && (e.candidate <==> forall j :: 0 <= j < e.i ==> e.rule.rhs[j] != e.orig.rhs[j])
  }

  /** The entry spawned at position `j`: `rhs[j]` tagged, scanning resumes at `j + 1`. */
  function Child(e: Entry, j: nat): (c: Entry)
    requires j < |e.rule.rhs|
    ensures c.i == j + 1 && |c.rule.rhs| == |e.rule.rhs| && c.orig == e.orig
  {
    Entry(Rule(e.rule.lhs, e.rule.rhs[j := Tagged(e.rule.rhs[j])]), j + 1, e.candidate && j == e.i, e.orig)
  }

  /** The rule an entry finally contributes: its lhs tagged when `candidate` survives. */
  function Emitted(e: Entry): Rule {
    if e.candidate && e.i >= |e.rule.rhs| then Rule(Tagged(e.rule.lhs), e.rule.rhs) else e.rule
  }

  function Pow2(k: nat): (r: nat)
    ensures r >= 1
  {
    if k == 0 then 1 else 2 * Pow2(k - 1)
  }

  /** The most entries an entry can still give rise to, itself included. */
  function Weight(e: Entry): nat {
    Pow2(if e.i <= |e.rule.rhs| then |e.rule.rhs| - e.i else 0)
  }

  function SumWeight(s: seq<Entry>): nat {
    if s == [] then 0 else Weight(s[0]) + SumWeight(s[1..])
  }

  lemma {:induction false} SumWeightAppend(a: seq<Entry>, b: seq<Entry>)
    ensures SumWeight(a + b) == SumWeight(a) + SumWeight(b)
  {
    if a != [] {
      assert (a + b)[0] == a[0] && (a + b)[1..] == a[1..] + b;
      SumWeightAppend(a[1..], b);
    } else {
      assert a + b == b;
    }
  }

  /**
   * The inner `while i < n` loop of `makeNewRules` for one entry: the
   * entries it spawns, one per nullable nonterminal from `i` on, and
   * whether `candidate` survives.
   */
  method Expand(rules: Rules, nullable: map<Symbol, bool>, e: Entry) returns (spawned: seq<Entry>, candidate: bool)
    requires e.i <= |e.rule.rhs|
    ensures candidate == (e.candidate && e.i >= |e.rule.rhs|)
    ensures forall c :: c in spawned <==>
      exists j :: e.i <= j < |e.rule.rhs| && NullableNT(rules, nullable, e.rule.rhs[j]) && c == Child(e, j)
    ensures SumWeight(spawned) < Weight(e)
  {
    var rhs := e.rule.rhs;
    var n := |rhs|;
    var i := e.i;
    candidate := e.candidate;
    spawned := [];
    while i < n
      invariant e.i <= i <= n
      invariant candidate == (e.candidate && i == e.i)
      invariant forall c :: c in spawned <==>
        exists j :: e.i <= j < i && NullableNT(rules, nullable, rhs[j]) && c == Child(e, j)
      invariant SumWeight(spawned) + Pow2(n - i) <= Pow2(n - e.i)
    {
      var sym := rhs[i];
      if !(sym in rules && sym in nullable && nullable[sym]) {
        candidate := false;
        i := i + 1;
        continue;
      }
      var child := Entry(Rule(e.rule.lhs, rhs[i := NULLABLE + sym]), i + 1, candidate, e.orig);
      assert child == Child(e, i);
      SumWeightAppend(spawned, [child]);
      assert SumWeight([child]) == Pow2(n - (i + 1));
      spawned := spawned + [child];
      candidate := false;
      i := i + 1;
    }
  }

  /** A child entry keeps to what entries stand for. */
  lemma ChildOk(rules: Rules, nullable: map<Symbol, bool>, e: Entry, j: nat)
    requires EntryOk(rules, nullable, e) && e.i <= j < |e.rule.rhs| && NullableNT(rules, nullable, e.rule.rhs[j])
    ensures EntryOk(rules, nullable, Child(e, j))
  {
    var c := Child(e, j);
    assert e.rule.rhs[j] == e.orig.rhs[j];
    assert Tagged(e.orig.rhs[j]) != e.orig.rhs[j] by {
      assert |Tagged(e.orig.rhs[j])| > |e.orig.rhs[j]|;
    }
    forall k | 0 <= k < c.i ensures (c.rule.rhs[k] != c.orig.rhs[k]) == (k == j || (k < e.i && e.rule.rhs[k] != e.orig.rhs[k])) {
    }
    assert j > e.i ==> c.rule.rhs[e.i] == c.orig.rhs[e.i];
    assert (forall k :: 0 <= k < e.i ==> c.rule.rhs[k] == e.rule.rhs[k]);
  }

  /** The rule an entry emits is one of the copies of its original. */
  lemma EmittedVariant(rules: Rules, nullable: map<Symbol, bool>, e: Entry)
    requires EntryOk(rules, nullable, e)
    ensures VariantOf(rules, nullable, e.orig, Emitted(e))
  {
    var r := Emitted(e);
    if e.i < |e.rule.rhs| {
      assert r.rhs[e.i] == e.orig.rhs[e.i];
      assert !AllSubstituted(e.orig, r);
    } else {
      assert AllSubstituted(e.orig, r) <==> e.candidate;
    }
  }

  /** `r` is still reachable from entry `e`: they agree before `i`, and `e` is untouched after. */
  ghost predicate Covers(e: Entry, o: Rule, r: Rule) {
    && e.orig == o
    && |r.rhs| == |e.rule.rhs|
    && e.i <= |e.rule.rhs|
    && (forall j :: 0 <= j < e.i ==> r.rhs[j] == e.rule.rhs[j])
  }

  /**
   * A copy covered by an entry is either what the entry emits, or is
   * covered by the child spawned at its first tagged position from `i` on.
   */
  lemma CoverStep(rules: Rules, nullable: map<Symbol, bool>, e: Entry, o: Rule, r: Rule)
    requires EntryOk(rules, nullable, e) && Covers(e, o, r) && VariantOf(rules, nullable, o, r)
    ensures r == Emitted(e) || exists j :: e.i <= j < |e.rule.rhs| && NullableNT(rules, nullable, e.rule.rhs[j]) && Covers(Child(e, j), o, r)
  {
    var n := |e.rule.rhs|;
    if j :| e.i <= j < n && r.rhs[j] != o.rhs[j] {
      var first := j;
      while first > e.i && exists k :: e.i <= k < first && r.rhs[k] != o.rhs[k]
        invariant e.i <= first <= j && r.rhs[first] != o.rhs[first]
        decreases first
      {
        var k :| e.i <= k < first && r.rhs[k] != o.rhs[k];
        first := k;
      }
      assert e.rule.rhs[first] == o.rhs[first];
      assert NullableNT(rules, nullable, e.rule.rhs[first]);
      var c := Child(e, first);
      forall k | 0 <= k < c.i ensures r.rhs[k] == c.rule.rhs[k] {
        if k < e.i {
        } else if k < first {
          assert r.rhs[k] == o.rhs[k];
        }
      }
      assert Covers(c, o, r);
    } else {
      assert r.rhs == e.rule.rhs by {
        forall k | 0 <= k < n ensures r.rhs[k] == e.rule.rhs[k] {
          if k >= e.i { assert r.rhs[k] == o.rhs[k]; }
        }
      }
      if e.i < n {
        assert r.rhs[e.i] == o.rhs[e.i];
        assert !AllSubstituted(o, r);
      } else {
        assert AllSubstituted(o, r) <==> e.candidate;
      }
    }
  }

  /** `self.newrules[rule.lhs]` holds `rule`. */
  predicate Produced(newrules: map<Symbol, seq<Rule>>, r: Rule) {
    r.lhs in newrules && r in newrules[r.lhs]
  }

  /** The initial worklist: `(rule, 0, 1, rule)` for every rule, in dict order. */
  method InitialWorklist(rules: Rules, order: seq<Symbol>) returns (worklist: seq<Entry>)
    requires WellFormed(rules) && KeyOrder(rules, order)
    ensures forall e :: e in worklist ==> e.rule == e.orig && e.i == 0 && e.candidate && Original(rules, e.orig)
    ensures forall o :: Original(rules, o) ==> Entry(o, 0, true, o) in worklist
  {
    worklist := [];
    for idx := 0 to |order|
      invariant forall e :: e in worklist ==> e.rule == e.orig && e.i == 0 && e.candidate && Original(rules, e.orig)
      invariant forall o :: Original(rules, o) && o.lhs in order[..idx] ==> Entry(o, 0, true, o) in worklist
    {
      var rulelist := rules[order[idx]];
      for ri := 0 to |rulelist|
        invariant forall e :: e in worklist ==> e.rule == e.orig && e.i == 0 && e.candidate && Original(rules, e.orig)
        invariant forall o :: Original(rules, o) && o.lhs in order[..idx] ==> Entry(o, 0, true, o) in worklist
        invariant forall o :: o in rulelist[..ri] ==> Entry(o, 0, true, o) in worklist
      {
        var rule := rulelist[ri];
        assert rule in rules[order[idx]];
        worklist := worklist + [Entry(rule, 0, true, rule)];
      }
      assert rulelist[..|rulelist|] == rulelist;
      forall o | Original(rules, o) && o.lhs in order[..idx + 1] ensures Entry(o, 0, true, o) in worklist {
        if o.lhs !in order[..idx] {
          assert o.lhs == order[idx];
        }
      }
    }
    forall o | Original(rules, o) ensures Entry(o, 0, true, o) in worklist {
      assert o.lhs in order;
      assert order[..|order|] == order;
    }
  }

  /** What the output tables say about each other and about the user grammar. */
  ghost predicate OutputOk(rules: Rules, nullable: map<Symbol, bool>,
                           newrules: map<Symbol, seq<Rule>>, new2old: map<Rule, Rule>) {
    && (forall key :: key in newrules ==> |newrules[key]| > 0)
    && (forall key, r :: key in newrules && r in newrules[key] ==> r.lhs == key && r in new2old)
    && (forall r :: r in new2old ==> Produced(newrules, r) && Original(rules, new2old[r]) && VariantOf(rules, nullable, new2old[r], r))
  }

  /** The entries `Expand` spawns keep to what entries stand for, and all of them are there. */
  lemma SpawnedOk(rules: Rules, nullable: map<Symbol, bool>, e: Entry, spawned: seq<Entry>)
    requires EntryOk(rules, nullable, e)
    requires forall c :: c in spawned <==>
      exists j :: e.i <= j < |e.rule.rhs| && NullableNT(rules, nullable, e.rule.rhs[j]) && c == Child(e, j)
    ensures forall c :: c in spawned ==> EntryOk(rules, nullable, c)
    ensures forall j :: e.i <= j < |e.rule.rhs| && NullableNT(rules, nullable, e.rule.rhs[j]) ==> Child(e, j) in spawned
  {
    forall c | c in spawned ensures EntryOk(rules, nullable, c) {
      var j :| e.i <= j < |e.rule.rhs| && NullableNT(rules, nullable, e.rule.rhs[j]) && c == Child(e, j);
      ChildOk(rules, nullable, e, j);
    }
  }

  /** Taking one entry off the worklist and appending its children lowers the weight. */
  lemma WeightStep(worklist: seq<Entry>, w: nat, spawned: seq<Entry>)
    requires w < |worklist| && SumWeight(spawned) < Weight(worklist[w])
    ensures SumWeight((worklist + spawned)[w + 1..]) < SumWeight(worklist[w..])
  {
    assert worklist[w..] == [worklist[w]] + worklist[w + 1..];
    assert (worklist + spawned)[w + 1..] == worklist[w + 1..] + spawned;
    SumWeightAppend([worklist[w]], worklist[w + 1..]);
    SumWeightAppend(worklist[w + 1..], spawned);
  }

  /** Recording one emitted rule keeps the tables consistent. */
  lemma RecordOk(rules: Rules, nullable: map<Symbol, bool>,
                 newrules: map<Symbol, seq<Rule>>, new2old: map<Rule, Rule>, r: Rule, o: Rule)
    requires OutputOk(rules, nullable, newrules, new2old)
    requires Original(rules, o) && VariantOf(rules, nullable, o, r)
    ensures OutputOk(rules, nullable,
                     newrules[r.lhs := if r.lhs in newrules then newrules[r.lhs] + [r] else [r]],
                     new2old[r := o])
  {
  }

  /** No copy is lost: each is already produced or still covered by a pending entry. */
  ghost predicate Complete(rules: Rules, nullable: map<Symbol, bool>, newrules: map<Symbol, seq<Rule>>,
                           worklist: seq<Entry>, w: nat) {
    forall o, r :: Original(rules, o) && VariantOf(rules, nullable, o, r) ==>
      Produced(newrules, r) || exists k :: w <= k < |worklist| && Covers(worklist[k], o, r)
  }

  /** One step of the outer loop keeps every copy produced or covered. */
  lemma StepComplete(rules: Rules, nullable: map<Symbol, bool>, newrules: map<Symbol, seq<Rule>>,
                     newrules': map<Symbol, seq<Rule>>, worklist: seq<Entry>, w: nat, spawned: seq<Entry>)
    requires w < |worklist| && EntryOk(rules, nullable, worklist[w])
    requires Complete(rules, nullable, newrules, worklist, w)
    requires forall r :: Produced(newrules, r) ==> Produced(newrules', r)
    requires Produced(newrules', Emitted(worklist[w]))
    requires var e := worklist[w]; forall j :: e.i <= j < |e.rule.rhs| && NullableNT(rules, nullable, e.rule.rhs[j]) ==> Child(e, j) in spawned
    ensures Complete(rules, nullable, newrules', worklist + spawned, w + 1)
  {
    var wl := worklist + spawned;
    forall o, r | Original(rules, o) && VariantOf(rules, nullable, o, r)
      ensures Produced(newrules', r) || exists k :: w + 1 <= k < |wl| && Covers(wl[k], o, r)
    {
      if !Produced(newrules, r) {
        var k :| w <= k < |worklist| && Covers(worklist[k], o, r);
        if k == w {
          CoveredByChild(rules, nullable, worklist, w, spawned, o, r);
        } else {
          assert wl[k] == worklist[k];
        }
      }
    }
  }

  /**
   * A copy the entry being worked on covers is either the one it emits or
   * one a child it spawned covers.
   */
  lemma CoveredByChild(rules: Rules, nullable: map<Symbol, bool>, worklist: seq<Entry>, w: nat, spawned: seq<Entry>,
                       o: Rule, r: Rule)
    requires w < |worklist| && EntryOk(rules, nullable, worklist[w]) && Covers(worklist[w], o, r)
    requires VariantOf(rules, nullable, o, r)
    requires var e := worklist[w]; forall j :: e.i <= j < |e.rule.rhs| && NullableNT(rules, nullable, e.rule.rhs[j]) ==> Child(e, j) in spawned
    ensures r == Emitted(worklist[w]) || exists k :: |worklist| <= k < |worklist + spawned| && Covers((worklist + spawned)[k], o, r)
  {
    CoverStep(rules, nullable, worklist[w], o, r);
    if r != Emitted(worklist[w]) {
      var e := worklist[w];
      var j :| e.i <= j < |e.rule.rhs| && NullableNT(rules, nullable, e.rule.rhs[j]) && Covers(Child(e, j), o, r);
      var m :| 0 <= m < |spawned| && spawned[m] == Child(e, j);
      assert (worklist + spawned)[|worklist| + m] == Child(e, j);
    }
  }

  /**
   * `makeNewRules`: `newrules` holds exactly the copies of the user rules
   * (every subset of nullable positions tagged, the lhs tagged when all
   * were), each listed under its lhs, and `new2old` maps each copy to a rule
   * it is a copy of.
   */
  method MakeNewRules(rules: Rules, order: seq<Symbol>, nullable: map<Symbol, bool>)
    returns (newrules: map<Symbol, seq<Rule>>, new2old: map<Rule, Rule>)
    requires WellFormed(rules) && KeyOrder(rules, order)
    ensures OutputOk(rules, nullable, newrules, new2old)
    ensures forall r :: Produced(newrules, r) ==>
      r in new2old && Original(rules, new2old[r]) && VariantOf(rules, nullable, new2old[r], r)
    ensures forall o, r :: Original(rules, o) && VariantOf(rules, nullable, o, r) ==> Produced(newrules, r)
  {
    var worklist := InitialWorklist(rules, order);
    newrules, new2old := map[], map[];
    forall o, r | Original(rules, o) && VariantOf(rules, nullable, o, r)
      ensures exists k :: 0 <= k < |worklist| && Covers(worklist[k], o, r)
    {
      var k :| 0 <= k < |worklist| && worklist[k] == Entry(o, 0, true, o);
    }
    var w := 0;
    while w < |worklist|
      invariant w <= |worklist|
      invariant forall e :: e in worklist ==> EntryOk(rules, nullable, e)
      invariant OutputOk(rules, nullable, newrules, new2old)
      invariant Complete(rules, nullable, newrules, worklist, w)
      decreases SumWeight(worklist[w..])
    {
      var e := worklist[w];
      assert e in worklist;
      var spawned, candidate := Expand(rules, nullable, e);
      var rule := e.rule;
      if candidate {
        rule := Rule(NULLABLE + e.rule.lhs, e.rule.rhs);
      }
      assert rule == Emitted(e);
      EmittedVariant(rules, nullable, e);
      RecordOk(rules, nullable, newrules, new2old, rule, e.orig);
      ghost var before := newrules;
      if rule.lhs in newrules {
        newrules := newrules[rule.lhs := newrules[rule.lhs] + [rule]];
      } else {
        newrules := newrules[rule.lhs := [rule]];
      }
      new2old := new2old[rule := e.orig];
      SpawnedOk(rules, nullable, e, spawned);
      StepComplete(rules, nullable, before, newrules, worklist, w, spawned);
      WeightStep(worklist, w, spawned);
      worklist := worklist + spawned;
      w := w + 1;
    }
  }
}
