/**
 * Grammar symbols, rules and items of the SPARK Earley parser, the
 * `\e_` tag used by the epsilon-free rewrite, `skip`, the ordering Python
 * uses when it sorts items, and the splitting of a rule text
 * `LHS ::= a b ::= c` into rules.
 */
module Grammar {
  import opened Ordering

  type Symbol = string

  /** Prefix of a nullable-tagged symbol (Python `r"\e_"`). */
  const NULLABLE: string := "\\e_"
  /** Synthetic start symbol and begin-of-input marker. */
  const START: Symbol := "START"
  const BOF: Symbol := "|-"
  /** The separator between a rule's lhs and rhs in a rule text. */
  const MARKER: string := "::="

  /** A production `lhs ::= rhs` (Python `(lhs, tuple(rhs))`). */
  datatype Rule = Rule(lhs: Symbol, rhs: seq<Symbol>)

  /** An Earley item: a rule and how far its rhs has been matched. */
  datatype Item = Item(rule: Rule, pos: nat)

  /** `isnullable`: the symbol carries the `\e_` tag. */
  predicate IsNullable(sym: Symbol) {
    |sym| >= |NULLABLE| && sym[..|NULLABLE|] == NULLABLE
  }

  function Tagged(sym: Symbol): (r: Symbol)
    ensures IsNullable(r) && r[|NULLABLE|..] == sym
  {
    NULLABLE + sym
  }

  /** Where `skip` stops: past the run of tagged symbols that starts at `pos`. */
  ghost function SkipTo(rule: Rule, pos: nat): nat
    decreases |rule.rhs| - pos
  {
    if pos < |rule.rhs| && IsNullable(rule.rhs[pos]) then SkipTo(rule, pos + 1) else pos
  }

  lemma {:induction false} SkipToWithin(rule: Rule, pos: nat)
    requires pos <= |rule.rhs|
    ensures pos <= SkipTo(rule, pos) <= |rule.rhs|
    decreases |rule.rhs| - pos
  {
    if pos < |rule.rhs| && IsNullable(rule.rhs[pos]) { SkipToWithin(rule, pos + 1); }
  }

  /**
   * `skip(rule, pos)`: the first position at or after `pos` whose symbol is
   * not `\e_`-tagged, or the end of the rhs (`pos` itself when it is already
   * past the end).
   */
  method Skip(rule: Rule, pos: nat) returns (r: nat)
    ensures r == SkipTo(rule, pos)
    ensures pos <= r
    ensures pos <= |rule.rhs| ==> r <= |rule.rhs|
    ensures pos > |rule.rhs| ==> r == pos
    ensures forall j :: pos <= j < r ==> IsNullable(rule.rhs[j])
    ensures r < |rule.rhs| ==> !IsNullable(rule.rhs[r])
  {
    var n := |rule.rhs|;
    r := pos;
    while r < n
      invariant pos <= r
      invariant pos <= n ==> r <= n
      invariant pos > n ==> r == pos
      invariant forall j :: pos <= j < r ==> IsNullable(rule.rhs[j])
      invariant SkipTo(rule, r) == SkipTo(rule, pos)
    {
      if !IsNullable(rule.rhs[r]) {
        break;
      }
      r := r + 1;
    }
  }

  // ---------------------------------------------------------------------
  // Python's ordering of rules and items (tuples compare lexicographically).
  // ---------------------------------------------------------------------

  predicate RuleLess(a: Rule, b: Rule) {
    StrLess(a.lhs, b.lhs) || (a.lhs == b.lhs && WordsLess(a.rhs, b.rhs))
  }

  predicate ItemLess(a: Item, b: Item) {
    RuleLess(a.rule, b.rule) || (a.rule == b.rule && a.pos < b.pos)
  }

  lemma ItemLessIsStrictTotal()
    ensures StrictTotal(ItemLess)
  {
    forall x: Item ensures !ItemLess(x, x) {
      StrLessIrreflexive(x.rule.lhs);
      WordsLessIrreflexive(x.rule.rhs);
    }
    forall x: Item, y: Item, z: Item | ItemLess(x, y) && ItemLess(y, z) ensures ItemLess(x, z) {
      StrLessIrreflexive(x.rule.lhs);
      StrLessIrreflexive(y.rule.lhs);
      WordsLessIrreflexive(x.rule.rhs);
      WordsLessIrreflexive(y.rule.rhs);
      if StrLess(x.rule.lhs, y.rule.lhs) && StrLess(y.rule.lhs, z.rule.lhs) {
        StrLessTransitive(x.rule.lhs, y.rule.lhs, z.rule.lhs);
      }
      if x.rule.lhs == y.rule.lhs == z.rule.lhs
        && WordsLess(x.rule.rhs, y.rule.rhs) && WordsLess(y.rule.rhs, z.rule.rhs) {
        WordsLessTransitive(x.rule.rhs, y.rule.rhs, z.rule.rhs);
      }
    }
    forall x: Item, y: Item | x != y ensures ItemLess(x, y) || ItemLess(y, x) {
      if x.rule.lhs != y.rule.lhs {
        StrLessTotal(x.rule.lhs, y.rule.lhs);
      } else if x.rule.rhs != y.rule.rhs {
        WordsLessTotal(x.rule.rhs, y.rule.rhs);
      }
    }
  }

  // ---------------------------------------------------------------------
  // Rule texts: `addRule` splits its text into words and makes one rule per
  // `::=` marker, whose lhs is the word before the marker and whose rhs is
  // every word after it up to the next rule's lhs.
  // ---------------------------------------------------------------------

  /** Positions of the `::=` markers, in increasing order. */
  function Markers(words: seq<string>): seq<nat> {
    if words == [] then []
    else
      var init := Markers(words[..|words| - 1]);
      if words[|words| - 1] == MARKER then init + [|words| - 1] else init
  }

  ghost predicate MarkersOf(words: seq<string>, ms: seq<nat>) {
    && (forall j :: 0 <= j < |ms| ==> ms[j] < |words| && words[ms[j]] == MARKER)
    && (forall j, l :: 0 <= j < l < |ms| ==> ms[j] < ms[l])
    && (forall p :: 0 <= p < |words| && words[p] == MARKER ==> p in ms)
  }

  /** `Markers` lists every marker position, in increasing order, and nothing else. */
  lemma {:induction false} MarkersCorrect(words: seq<string>)
    ensures MarkersOf(words, Markers(words))
  {
    if words != [] {
      var init := words[..|words| - 1];
      MarkersCorrect(init);
      forall p | 0 <= p < |words| && words[p] == MARKER ensures p in Markers(words) {
        if p < |words| - 1 { assert init[p] == words[p]; }
      }
    }
  }

  /** Python list indexing, where index -1 is the last element. */
  function PyIndex(words: seq<string>, i: int): string
    requires -|words| <= i < |words|
  {
    if i < 0 then words[|words| + i] else words[i]
  }

  /** Python slicing `words[a:b]` for in-range bounds (empty when a >= b). */
  function PySlice(words: seq<string>, a: nat, b: nat): (r: seq<string>)
    requires a <= |words| && b <= |words|
    ensures |r| == if a < b then b - a else 0
  {
    if a < b then words[a..b] else []
  }

  /** The rule made for the `j`-th marker. */
  function RuleFor(words: seq<string>, ms: seq<nat>, j: nat): Rule
    requires j < |ms|
    requires forall l :: 0 <= l < |ms| ==> ms[l] < |words|
    requires forall l, m :: 0 <= l < m < |ms| ==> ms[l] < ms[m]
  {
    var next: nat := if j + 1 < |ms| then assert ms[j] < ms[j + 1]; ms[j + 1] - 1 else |words|;
    Rule(PyIndex(words, ms[j] as int - 1), PySlice(words, ms[j] + 1, next))
  }

  /** The rules a rule text declares, in order. */
  function ParseRules(words: seq<string>): (rs: seq<Rule>)
    ensures |rs| == |Markers(words)|
  {
    var ms := Markers(words);
    MarkersCorrect(words);
    seq(|ms|, j requires 0 <= j < |ms| => RuleFor(words, ms, j))
  }

  /** Number of occurrences of the marker. */
  function MarkerCount(words: seq<string>): nat {
    multiset(words)[MARKER]
  }

  /** Exactly one rule per `::=` marker. */
  lemma {:induction false} OneRulePerMarker(words: seq<string>)
    ensures |ParseRules(words)| == MarkerCount(words)
  {
    if words != [] {
      var init := words[..|words| - 1];
      assert words == init + [words[|words| - 1]];
      OneRulePerMarker(init);
    }
  }

  /** The text of a list of rules: `lhs ::= rhs...` for each, in order. */
  function Render(rs: seq<Rule>): seq<string> {
    if rs == [] then [] else [rs[0].lhs, MARKER] + rs[0].rhs + Render(rs[1..])
  }

  /** No rule uses the marker as a symbol. */
  predicate Plain(rs: seq<Rule>) {
    forall r :: r in rs ==> r.lhs != MARKER && MARKER !in r.rhs
  }

  function Shift(ms: seq<nat>, d: nat): (r: seq<nat>)
    ensures |r| == |ms|
    ensures forall j :: 0 <= j < |ms| ==> r[j] == ms[j] + d
  {
    seq(|ms|, j requires 0 <= j < |ms| => ms[j] + d)
  }

  lemma ShiftAppend(ms: seq<nat>, tail: seq<nat>, d: nat)
    ensures Shift(ms + tail, d) == Shift(ms, d) + Shift(tail, d)
  {
  }

  lemma {:induction false} MarkersAppend(a: seq<string>, b: seq<string>)
    ensures Markers(a + b) == Markers(a) + Shift(Markers(b), |a|)
    decreases |b|
  {
    if b == [] {
      assert a + b == a;
    } else {
      var b' := b[..|b| - 1];
      var last := b[|b| - 1];
      assert (a + b)[..|a + b| - 1] == a + b';
      assert (a + b)[|a + b| - 1] == last;
      MarkersAppend(a, b');
      var tail: seq<nat> := if last == MARKER then [|b| - 1] else [];
      assert Markers(b) == Markers(b') + tail;
      ShiftAppend(Markers(b'), tail, |a|);
      assert Shift(tail, |a|) == if last == MARKER then [|a + b| - 1] else [];
    }
  }

  lemma {:induction false} MarkersNone(s: seq<string>)
    requires MARKER !in s
    ensures Markers(s) == []
  {
    if s != [] {
      assert s[..|s| - 1] <= s;
      MarkersNone(s[..|s| - 1]);
    }
  }

  /** The text of one plain rule holds a single marker, right after the lhs. */
  lemma HeadMarkers(r: Rule)
    requires r.lhs != MARKER && MARKER !in r.rhs
    ensures Markers([r.lhs, MARKER] + r.rhs) == [1]
  {
    assert [r.lhs, MARKER] + r.rhs == [r.lhs] + ([MARKER] + r.rhs);
    MarkersAppend([r.lhs], [MARKER] + r.rhs);
    MarkersAppend([MARKER], r.rhs);
    MarkersNone(r.rhs);
    assert Markers([r.lhs]) == Markers([]) == [];
    assert Markers([MARKER]) == [0];
  }

  lemma RenderedMarkers(rs: seq<Rule>)
    requires Plain(rs) && rs != []
    ensures Markers(Render(rs)) != [] && Markers(Render(rs))[0] == 1
  {
    var head := [rs[0].lhs, MARKER] + rs[0].rhs;
    assert Render(rs) == head + Render(rs[1..]);
    MarkersAppend(head, Render(rs[1..]));
    HeadMarkers(rs[0]);
  }

  /** The later rules of `head + rest` are the rules of `rest`. */
  lemma ShiftedRule(head: seq<string>, rest: seq<string>, ms: seq<nat>, mr: seq<nat>, k: nat)
    requires k < |mr| && |ms| == |mr| + 1
    requires forall l :: 0 <= l < |ms| ==> ms[l] < |head + rest|
    requires forall l, m :: 0 <= l < m < |ms| ==> ms[l] < ms[m]
    requires forall l :: 0 <= l < |mr| ==> 1 <= mr[l] < |rest|
    requires forall l, m :: 0 <= l < m < |mr| ==> mr[l] < mr[m]
    requires ms[k + 1] == mr[k] + |head| && (k + 1 < |mr| ==> ms[k + 2] == mr[k + 1] + |head|)
    ensures RuleFor(head + rest, ms, k + 1) == RuleFor(rest, mr, k)
  {
    var words := head + rest;
    var at, at' := ms[k + 1], mr[k];
    var next := if k + 2 < |ms| then ms[k + 2] - 1 else |words|;
    var next' := if k + 1 < |mr| then mr[k + 1] - 1 else |rest|;
    assert next == next' + |head|;
    assert PyIndex(words, at - 1) == PyIndex(rest, at' - 1) by {
      assert words[at - 1] == rest[at' - 1];
    }
    if at' + 1 < next' {
      SliceShift(head, rest, at' + 1, next');
    }
  }

  lemma SliceShift<T>(head: seq<T>, rest: seq<T>, a: nat, b: nat)
    requires a <= b <= |rest|
    ensures (head + rest)[a + |head|..b + |head|] == rest[a..b]
  {
  }

  /** The markers of `head + rest`, the head's at 1 and the rest's shifted, stay in range and increasing. */
  lemma ShiftedMarkers(head: seq<string>, rest: seq<string>, ms: seq<nat>, mr: seq<nat>)
    requires |head| >= 2
    requires forall l :: 0 <= l < |mr| ==> 1 <= mr[l] < |rest|
    requires forall l, m :: 0 <= l < m < |mr| ==> mr[l] < mr[m]
    requires ms == [1] + Shift(mr, |head|)
    ensures forall l :: 0 <= l < |ms| ==> ms[l] < |head + rest|
    ensures forall l, m :: 0 <= l < m < |ms| ==> ms[l] < ms[m]
    ensures |ms| == |mr| + 1 && forall l :: 0 <= l < |mr| ==> ms[l + 1] == mr[l] + |head|
  {
    assert forall l :: 0 < l < |ms| ==> ms[l] == mr[l - 1] + |head|;
  }

  /** The first rule of `[lhs, ::=] + rhs + rest` is `lhs ::= rhs`. */
  lemma FirstRule(r: Rule, rest: seq<string>, ms: seq<nat>, mr: seq<nat>)
    requires forall l :: 0 <= l < |mr| ==> 1 <= mr[l] < |rest|
    requires forall l, m :: 0 <= l < m < |mr| ==> mr[l] < mr[m]
    requires rest == [] || (mr != [] && mr[0] == 1)
    requires ms == [1] + Shift(mr, |[r.lhs, MARKER] + r.rhs|)
    ensures forall l :: 0 <= l < |ms| ==> ms[l] < |[r.lhs, MARKER] + r.rhs + rest|
    ensures forall l, m :: 0 <= l < m < |ms| ==> ms[l] < ms[m]
    ensures RuleFor([r.lhs, MARKER] + r.rhs + rest, ms, 0) == r
  {
    var head := [r.lhs, MARKER] + r.rhs;
    var words := head + rest;
    var next := if 1 < |ms| then ms[1] - 1 else |words|;
    assert 1 < |ms| ==> ms[1] == mr[0] + |head|;
    assert next == |head|;
    assert words[2..|head|] == r.rhs;
  }

  /** Prefixing one rule's text adds that rule in front. */
  lemma ParseRulesCons(r: Rule, rest: seq<string>)
    requires r.lhs != MARKER && MARKER !in r.rhs
    requires rest == [] || (Markers(rest) != [] && Markers(rest)[0] == 1)
    ensures ParseRules([r.lhs, MARKER] + r.rhs + rest) == [r] + ParseRules(rest)
  {
    var head := [r.lhs, MARKER] + r.rhs;
    var words := head + rest;
    HeadMarkers(r);
    MarkersAppend(head, rest);
    MarkersCorrect(rest);
    var ms := Markers(words);
    var mr := Markers(rest);
    assert ms == [1] + Shift(mr, |head|);
    assert forall l :: 0 <= l < |mr| ==> 1 <= mr[l] < |rest| by {
      forall l | 0 <= l < |mr| ensures 1 <= mr[l] {
        if l > 0 { assert mr[0] < mr[l]; }
      }
    }
    var lhs := ParseRules(words);
    var rhs := [r] + ParseRules(rest);
    assert |lhs| == |rhs|;
    MarkersCorrect(rest);
    forall j | 0 <= j < |lhs| ensures lhs[j] == rhs[j] {
      ConsAt(r, rest, head, words, ms, mr, j);
    }
  }

  /** Rule `j` of the prefixed text: `r` first, then the rules of `rest`. */
  lemma ConsAt(r: Rule, rest: seq<string>, head: seq<string>, words: seq<string>, ms: seq<nat>, mr: seq<nat>, j: nat)
    requires head == [r.lhs, MARKER] + r.rhs && words == head + rest
    requires ms == Markers(words) && mr == Markers(rest) && ms == [1] + Shift(mr, |head|)
    requires forall l :: 0 <= l < |mr| ==> 1 <= mr[l] < |rest|
    requires forall l, m :: 0 <= l < m < |mr| ==> mr[l] < mr[m]
    requires rest == [] || (mr != [] && mr[0] == 1)
    requires j < |ms|
    ensures j < |ParseRules(words)| && ParseRules(words)[j] == ([r] + ParseRules(rest))[j]
  {
    if j == 0 {
      ParseRulesAt(words, j);
      FirstRule(r, rest, ms, mr);
    } else {
      ShiftedMarkers(head, rest, ms, mr);
      LaterRule(head, rest, words, ms, mr, j);
      ConsIndex(r, ParseRules(rest), j);
    }
  }

  /** Rule `j > 0` of `head + rest` is rule `j - 1` of `rest`, when the rest's markers are the later ones shifted. */
  lemma LaterRule(head: seq<string>, rest: seq<string>, words: seq<string>, ms: seq<nat>, mr: seq<nat>, j: nat)
    requires words == head + rest && ms == Markers(words) && mr == Markers(rest) && 0 < j < |ms|
    requires forall l :: 0 <= l < |ms| ==> ms[l] < |head + rest|
    requires forall l, m :: 0 <= l < m < |ms| ==> ms[l] < ms[m]
    requires |ms| == |mr| + 1 && forall l :: 0 <= l < |mr| ==> ms[l + 1] == mr[l] + |head|
    requires forall l :: 0 <= l < |mr| ==> 1 <= mr[l] < |rest|
    requires forall l, m :: 0 <= l < m < |mr| ==> mr[l] < mr[m]
    ensures j < |ParseRules(words)| && j - 1 < |ParseRules(rest)| && ParseRules(words)[j] == ParseRules(rest)[j - 1]
  {
    assert ParseRules(words)[j] == RuleFor(words, ms, j) by {
      ParseRulesAt(words, j);
    }
    assert ParseRules(rest)[j - 1] == RuleFor(rest, mr, j - 1) by {
      ParseRulesAt(rest, j - 1);
    }
    ShiftedRule(head, rest, ms, mr, j - 1);
  }

  lemma ConsIndex<T>(x: T, s: seq<T>, j: nat)
    requires 0 < j <= |s|
    ensures ([x] + s)[j] == s[j - 1]
  {
  }

  /** Rule `j` of a rule text is the one its `j`-th marker declares. */
  lemma ParseRulesAt(words: seq<string>, j: nat)
    requires j < |Markers(words)|
    ensures MarkersOf(words, Markers(words))
    ensures ParseRules(words)[j] == RuleFor(words, Markers(words), j)
  {
    MarkersCorrect(words);
  }

  /** Splitting the text of a list of rules gives back those rules. */
  lemma {:induction false} ParseRender(rs: seq<Rule>)
    requires Plain(rs)
    ensures ParseRules(Render(rs)) == rs
  {
    if rs == [] {
      assert Render(rs) == [];
    } else {
      assert Plain(rs[1..]) by {
        forall r | r in rs[1..] ensures r.lhs != MARKER && MARKER !in r.rhs {
          assert r in rs;
        }
      }
      ParseRender(rs[1..]);
      if rs[1..] != [] {
        RenderedMarkers(rs[1..]);
      } else {
        assert Render(rs[1..]) == [];
      }
      ParseRulesCons(rs[0], Render(rs[1..]));
      assert rs == [rs[0]] + rs[1..];
    }
  }
  // ---------------------------------------------------------------------
  // `str.split()` with no argument: the maximal runs of non-whitespace.
  // ---------------------------------------------------------------------

  /**
   * The characters Python's `str.isspace` accepts, at which `split()`
   * breaks: the ASCII controls 9-13 and 28-31, space, and the Unicode
   * whitespace and separator characters.
   */
  predicate IsSpace(c: char) {
    if c <= ' ' then AsciiSpace(c) else WideSpace(c)
  }

  /** Whitespace up to the space character: 9-13 and 28-32. */
  predicate AsciiSpace(c: char) {
    '\t' <= c <= '\r' || '\U{001C}' <= c <= ' '
  }

  /** Whitespace beyond the space character. */
  predicate WideSpace(c: char) {
    || c == '\U{0085}' || c == '\U{00A0}' || c == '\U{1680}'
    || ('\U{2000}' <= c <= '\U{200A}')
    || c == '\U{2028}' || c == '\U{2029}' || c == '\U{202F}' || c == '\U{205F}' || c == '\U{3000}'
  }

  /** The run of non-whitespace characters `s` starts with. */
  function WordAt(s: string): (w: string)
    ensures |w| <= |s|
  {
    if s == [] || IsSpace(s[0]) then [] else [s[0]] + WordAt(s[1..])
  }

  /** `s.split()`. */
  function Words(s: string): seq<string>
    decreases |s|
  {
    if s == [] then []
    else if IsSpace(s[0]) then Words(s[1..])
    else
      var w := WordAt(s);
      assert |w| > 0;
      [w] + Words(s[|w|..])
  }

  /** `WordAt` is the longest prefix without whitespace. */
  lemma {:induction false} WordAtSpec(s: string)
    ensures WordAt(s) == s[..|WordAt(s)|]
    ensures forall c :: c in WordAt(s) ==> !IsSpace(c)
    ensures |WordAt(s)| < |s| ==> IsSpace(s[|WordAt(s)|])
  {
    if s != [] && !IsSpace(s[0]) {
      WordAtSpec(s[1..]);
    }
  }

  /** The words of a text are non-empty and free of whitespace. */
  lemma {:induction false} WordsSpec(s: string)
    ensures forall w :: w in Words(s) ==> |w| > 0 && forall c :: c in w ==> !IsSpace(c)
    decreases |s|
  {
    if s != [] {
      if IsSpace(s[0]) {
        WordsSpec(s[1..]);
      } else {
        WordAtSpec(s);
        WordsSpec(s[|WordAt(s)|..]);
      }
    }
  }

  lemma {:induction false} WordAtWord(w: string, rest: string)
    requires forall c :: c in w ==> !IsSpace(c)
    requires rest == [] || IsSpace(rest[0])
    ensures WordAt(w + rest) == w
    decreases |w|
  {
    if w != [] {
      assert (w + rest)[1..] == w[1..] + rest;
      assert forall c :: c in w[1..] ==> c in w;
      WordAtWord(w[1..], rest);
    } else {
      assert w + rest == rest;
    }
  }

  /** Splitting a word followed by a space and more text. */
  lemma WordsCons(w: string, rest: string)
    requires |w| > 0 && forall c :: c in w ==> !IsSpace(c)
    ensures Words(w + " " + rest) == [w] + Words(rest)
  {
    var s := w + " " + rest;
    WordAtWord(w, " " + rest);
    assert w + " " + rest == w + (" " + rest);
    assert s[|w|..] == " " + rest;
    assert (" " + rest)[1..] == rest;
  }

  /** A word of the given characters has no whitespace. */
  lemma NoSpace(w: string)
    requires forall j :: 0 <= j < |w| ==> !IsSpace(w[j])
    ensures forall c :: c in w ==> !IsSpace(c)
  {
  }

  /** The text `augment` builds splits into the start rule's words. */
  lemma AugmentWords(start: string)
    ensures Words(START + " " + MARKER + " " + BOF + " " + start) == [START, MARKER, BOF] + Words(start)
  {
    NoSpace(START);
    NoSpace(MARKER);
    NoSpace(BOF);
    ThreeWords(START, MARKER, BOF, start);
  }

  lemma ThreeWords(a: string, b: string, c: string, rest: string)
    requires |a| > 0 && |b| > 0 && |c| > 0
    requires forall x :: x in a ==> !IsSpace(x)
    requires forall x :: x in b ==> !IsSpace(x)
    requires forall x :: x in c ==> !IsSpace(x)
    ensures Words(a + " " + b + " " + c + " " + rest) == [a, b, c] + Words(rest)
  {
    var t3 := c + " " + rest;
    var t2 := b + " " + t3;
    var whole := a + " " + b + " " + c + " " + rest;
    assert whole == a + " " + t2;
    calc {
      Words(whole);
      Words(a + " " + t2);
      { WordsCons(a, t2); }
      [a] + Words(t2);
      { WordsCons(b, t3); }
      [a] + ([b] + Words(t3));
      { WordsCons(c, rest); }
      [a] + ([b] + ([c] + Words(rest)));
      [a, b, c] + Words(rest);
    }
  }
}
