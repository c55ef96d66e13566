/**
 * `_namelist` and `GenericScanner`: the names a class and its bases
 * define, the alternation of `t_` patterns that `reflect` builds from
 * them, and `tokenize`, which calls the handler of the first alternative
 * that matches at each position. The regular expression engine is an
 * oracle: `matches(pattern, s, pos)` is the end of the match of one
 * alternative anchored at `pos`, if any.
 */
module Scanner {
  import opened Wrappers

  // ---------------------------------------------------------------------
  // _namelist
  // ---------------------------------------------------------------------

  /** A class: the keys of its `__dict__`, in order, and its `__bases__` as class ids. */
  datatype ClassDef = ClassDef(names: seq<string>, bases: seq<nat>)

  /** A base always exists before the class that names it, so bases have smaller ids. */
  ghost predicate Hierarchy(classes: seq<ClassDef>) {
    forall c, j :: 0 <= c < |classes| && 0 <= j < |classes[c].bases| ==> classes[c].bases[j] < c
  }

  /** `a` is `c` or one of its bases, directly or through other bases. */
  ghost predicate Inherits(classes: seq<ClassDef>, c: nat, a: nat)
    requires Hierarchy(classes) && c < |classes|
    decreases c
  {
    a == c || exists j :: 0 <= j < |classes[c].bases| && Inherits(classes, classes[c].bases[j], a)
  }

  /** A name `c` or one of its bases defines. */
  ghost predicate Defines(classes: seq<ClassDef>, c: nat, n: string)
    requires Hierarchy(classes) && c < |classes|
  {
    exists a :: 0 <= a < |classes| && Inherits(classes, c, a) && n in classes[a].names
  }

  /** How many entries the worklist of `_namelist` gets for `c` and everything below it. */
  ghost function Unfolded(classes: seq<ClassDef>, c: nat): nat
    requires Hierarchy(classes) && c < |classes|
    decreases c + 1, 0
  {
    1 + UnfoldedAll(classes, classes[c].bases, c)
  }

  ghost function UnfoldedAll(classes: seq<ClassDef>, ids: seq<nat>, bound: nat): nat
    requires Hierarchy(classes) && bound <= |classes| && forall j :: 0 <= j < |ids| ==> ids[j] < bound
    decreases bound, |ids|
  {
    if ids == [] then 0 else UnfoldedAll(classes, ids[..|ids| - 1], bound) + Unfolded(classes, ids[|ids| - 1])
  }

  lemma {:induction false} UnfoldedAppend(classes: seq<ClassDef>, a: seq<nat>, b: seq<nat>)
    requires Hierarchy(classes) && (forall j :: 0 <= j < |a| ==> a[j] < |classes|) && (forall j :: 0 <= j < |b| ==> b[j] < |classes|)
    ensures forall j :: 0 <= j < |a + b| ==> (a + b)[j] < |classes|
    ensures UnfoldedAll(classes, a + b, |classes|) == UnfoldedAll(classes, a, |classes|) + UnfoldedAll(classes, b, |classes|)
    decreases |b|
  {
    if b == [] {
      assert a + b == a;
    } else {
      assert (a + b)[..|a + b| - 1] == a + b[..|b| - 1];
      UnfoldedAppend(classes, a, b[..|b| - 1]);
    }
  }

  /** The weight of the bases of `c` does not depend on the bound they are counted under. */
  lemma {:induction false} UnfoldedBound(classes: seq<ClassDef>, ids: seq<nat>, bound: nat, bound': nat)
    requires Hierarchy(classes) && bound <= |classes| && bound' <= |classes|
    requires forall j :: 0 <= j < |ids| ==> ids[j] < bound && ids[j] < bound'
    ensures UnfoldedAll(classes, ids, bound) == UnfoldedAll(classes, ids, bound')
    decreases |ids|
  {
    if ids != [] {
      UnfoldedBound(classes, ids[..|ids| - 1], bound, bound');
    }
  }

  /** A worklist of one class weighs one more than its bases. */
  lemma UnfoldedSingle(classes: seq<ClassDef>, x: nat)
    requires Hierarchy(classes) && x < |classes|
    ensures UnfoldedAll(classes, [x], |classes|) == Unfolded(classes, x) == 1 + UnfoldedAll(classes, classes[x].bases, |classes|)
  {
    assert [x][..0] == [];
    UnfoldedBound(classes, classes[x].bases, x, |classes|);
  }

  /** Replacing the head `x` of the worklist by its bases lowers its weight by one. */
  lemma Shrinks(classes: seq<ClassDef>, x: nat, rest: seq<nat>)
    requires Hierarchy(classes) && x < |classes| && forall j :: 0 <= j < |rest| ==> rest[j] < |classes|
    ensures forall j :: 0 <= j < |[x] + rest| ==> ([x] + rest)[j] < |classes|
    ensures forall j :: 0 <= j < |rest + classes[x].bases| ==> (rest + classes[x].bases)[j] < |classes|
    ensures UnfoldedAll(classes, rest + classes[x].bases, |classes|) < UnfoldedAll(classes, [x] + rest, |classes|)
  {
    UnfoldedAppend(classes, [x], rest);
    UnfoldedAppend(classes, rest, classes[x].bases);
    UnfoldedSingle(classes, x);
  }

  /** No name occurs twice. */
  predicate Distinct(names: seq<string>) {
    forall i, j :: 0 <= i < j < |names| ==> names[i] != names[j]
  }

  /**
   * The inner loop of `_namelist` over one class's names: each name not
   * seen before is appended and recorded in `namedict`.
   */
  method AddNames(names: seq<string>, seen: set<string>, own: seq<string>) returns (names': seq<string>, seen': set<string>)
    requires Distinct(names) && (forall n :: n in seen <==> n in names)
    ensures Distinct(names') && (forall n :: n in seen' <==> n in names')
    ensures |names| <= |names'| && names'[..|names|] == names && (forall n :: n in seen' <==> n in seen || n in own)
    ensures forall j :: |names| <= j < |names'| ==> names'[j] in own
    ensures (forall n :: n in names ==> n in names') && (forall n :: n in own ==> n in names')
  {
    names', seen' := names, seen;
    for k := 0 to |own|
      invariant Distinct(names') && (forall n :: n in seen' <==> n in names')
      invariant |names| <= |names'| && names'[..|names|] == names
      invariant forall n :: n in seen' <==> n in seen || n in own[..k]
      invariant forall j :: |names| <= j < |names'| ==> names'[j] in own
      invariant forall n :: n in names ==> n in names'
    {
      assert own[..k + 1] == own[..k] + [own[k]];
      if own[k] !in seen' {
        names' := names' + [own[k]];
        seen' := seen' + {own[k]};
      }
    }
    assert own[..|own|] == own;
  }

  /** Every ancestor of a member of a base-closed worklist is in it. */
  lemma {:induction false} InClosure(classes: seq<ClassDef>, list: seq<nat>, x: nat, a: nat)
    requires Hierarchy(classes) && x < |classes| && x in list && Inherits(classes, x, a)
    requires forall k :: 0 <= k < |list| ==> list[k] < |classes|
    requires forall k, j :: 0 <= k < |list| && 0 <= j < |classes[list[k]].bases| ==> classes[list[k]].bases[j] in list
    ensures a in list
    decreases x
  {
    if a != x {
      var k :| 0 <= k < |list| && list[k] == x;
      var j :| 0 <= j < |classes[x].bases| && Inherits(classes, classes[x].bases[j], a);
      InClosure(classes, list, classes[x].bases[j], a);
    }
  }

  /**
   * The state of `_namelist` before it visits `classlist[i]`: the worklist
   * starts at `c`, holds ancestors of `c` only, and has the bases of every
   * class visited so far; `names` holds, without repeats and with `c`'s own
   * names first, exactly the names of the visited classes.
   */
  ghost predicate Visited(classes: seq<ClassDef>, c: nat, classlist: seq<nat>, i: nat, names: seq<string>, seen: set<string>)
    requires Hierarchy(classes) && c < |classes|
  {
    && i <= |classlist| && |classlist| > 0 && classlist[0] == c
    && (forall k :: 0 <= k < |classlist| ==> classlist[k] < |classes| && Inherits(classes, c, classlist[k]))
    && (forall k, j :: 0 <= k < i && 0 <= j < |classes[classlist[k]].bases| ==> classes[classlist[k]].bases[j] in classlist)
    && Distinct(names) && (forall n :: n in seen <==> n in names)
    && (forall k, n :: 0 <= k < i && n in classes[classlist[k]].names ==> n in names)
    && (forall n :: n in names ==> Defines(classes, c, n))
    && (i == 0 ==> names == [])
    && (i > 0 ==> forall n :: n in classes[c].names ==> n in names)
    && (forall p, q :: 0 <= p < q < |names| && names[q] in classes[c].names ==> names[p] in classes[c].names)
  }

  /**
   * `_namelist(instance)` for an instance of class `c`: the names of `c`
   * and of all its bases without repeats, found breadth first, so the
   * names the class defines itself come first.
   */
  method Namelist(classes: seq<ClassDef>, c: nat) returns (names: seq<string>)
    requires Hierarchy(classes) && c < |classes|
    ensures Distinct(names)
    ensures forall n :: n in names <==> Defines(classes, c, n)
    ensures forall i, j :: 0 <= i < j < |names| && names[j] in classes[c].names ==> names[i] in classes[c].names
    ensures forall n :: n in classes[c].names ==> n in names
  {
    var seen: set<string> := {};
    var classlist: seq<nat> := [c];
    names := [];
    var i := 0;
    ghost var left := VisitStart(classes, c);
    while i < |classlist|
      invariant Visited(classes, c, classlist, i, names, seen) && Left(classes, classlist, i, left)
      decreases left
    {
      classlist, names, seen, left := Visit(classes, c, classlist, i, names, seen, left);
      i := i + 1;
    }
    Finished(classes, c, classlist, names, seen);
  }

  /** Before the loop: the worklist is `[c]` and nothing is collected. */
  lemma VisitStart(classes: seq<ClassDef>, c: nat) returns (left: nat)
    requires Hierarchy(classes) && c < |classes|
    ensures Visited(classes, c, [c], 0, [], {}) && Left(classes, [c], 0, left)
  {
    assert Inherits(classes, c, c);
    left := UnfoldedAll(classes, [c], |classes|);
  }

  /** `left` is the work still ahead of the loop of `_namelist`. */
  ghost predicate Left(classes: seq<ClassDef>, classlist: seq<nat>, i: nat, left: nat)
    requires Hierarchy(classes)
  {
    i <= |classlist| && (forall k :: 0 <= k < |classlist| ==> classlist[k] < |classes|) &&
    left == UnfoldedAll(classes, classlist[i..], |classes|)
  }

  /** After the loop: every class in the worklist was visited, so the names are complete. */
  lemma Finished(classes: seq<ClassDef>, c: nat, classlist: seq<nat>, names: seq<string>, seen: set<string>)
    requires Hierarchy(classes) && c < |classes| && Visited(classes, c, classlist, |classlist|, names, seen)
    ensures Distinct(names)
    ensures forall n :: n in names <==> Defines(classes, c, n)
    ensures forall i, j :: 0 <= i < j < |names| && names[j] in classes[c].names ==> names[i] in classes[c].names
    ensures forall n :: n in classes[c].names ==> n in names
  {
    AllFound(classes, c, classlist, names);
  }

  /** One turn of the loop of `_namelist`: the bases of `classlist[i]` queued, its new names appended. */
  method Visit(classes: seq<ClassDef>, c: nat, classlist: seq<nat>, i: nat, names: seq<string>, seen: set<string>,
               ghost left: nat)
    returns (classlist': seq<nat>, names': seq<string>, seen': set<string>, ghost left': nat)
    requires Hierarchy(classes) && c < |classes| && Visited(classes, c, classlist, i, names, seen) && i < |classlist|
    ensures Visited(classes, c, classlist', i + 1, names', seen')
    requires Left(classes, classlist, i, left)
    ensures Left(classes, classlist', i + 1, left') && left' < left
  {
    var x := classlist[i];
    var bases := classes[x].bases;
    classlist' := Enqueue(classlist, bases);
    BasesInherit(classes, c, x);
    Requeued(classlist, bases, i);
    Shrinks(classes, x, classlist[i + 1..]);
    names', seen' := AddNames(names, seen, classes[x].names);
    NamesFound(classes, c, x, seen', names, names', i);
    StillCollected(classes, classlist, classlist', names, names', i);
    left' := UnfoldedAll(classes, classlist'[i + 1..], |classes|);
  }

  /** The worklist only grows at its end, so the classes already visited keep their names collected. */
  lemma StillCollected(classes: seq<ClassDef>, before: seq<nat>, classlist: seq<nat>, names0: seq<string>, names: seq<string>, i: nat)
    requires i < |before| <= |classlist| && classlist[..|before|] == before
    requires forall k :: 0 <= k < |classlist| ==> classlist[k] < |classes|
    requires forall k, n :: 0 <= k < i && n in classes[before[k]].names ==> n in names0
    requires (forall n :: n in names0 ==> n in names) && (forall n :: n in classes[before[i]].names ==> n in names)
    ensures forall k, n :: 0 <= k < i + 1 && n in classes[classlist[k]].names ==> n in names
  {
    forall k, n | 0 <= k < i + 1 && n in classes[classlist[k]].names
      ensures n in names
    {
      assert classlist[k] == before[k];
    }
  }

  lemma Requeued(before: seq<nat>, bases: seq<nat>, i: nat)
    requires i < |before|
    ensures before[i..] == [before[i]] + before[i + 1..]
    ensures (before + bases)[i + 1..] == before[i + 1..] + bases
  {
  }

  /** Once the worklist is closed under bases and all its names are collected, every name defined is there. */
  lemma AllFound(classes: seq<ClassDef>, c: nat, classlist: seq<nat>, names: seq<string>)
    requires Hierarchy(classes) && c < |classes| && c in classlist
    requires forall k :: 0 <= k < |classlist| ==> classlist[k] < |classes|
    requires forall k, j :: 0 <= k < |classlist| && 0 <= j < |classes[classlist[k]].bases| ==> classes[classlist[k]].bases[j] in classlist
    requires forall k, n :: 0 <= k < |classlist| && n in classes[classlist[k]].names ==> n in names
    ensures forall n :: Defines(classes, c, n) ==> n in names
  {
    forall n | Defines(classes, c, n)
      ensures n in names
    {
      var a :| 0 <= a < |classes| && Inherits(classes, c, a) && n in classes[a].names;
      InClosure(classes, classlist, c, a);
      var k :| 0 <= k < |classlist| && classlist[k] == a;
      assert n in classes[classlist[k]].names;
    }
  }

  /** The loop of `_namelist` appending a class's bases to the worklist. */
  method Enqueue(classlist: seq<nat>, bases: seq<nat>) returns (classlist': seq<nat>)
    ensures classlist' == classlist + bases
  {
    classlist' := classlist;
    for j := 0 to |bases|
      invariant classlist' == classlist + bases[..j]
    {
      assert bases[..j + 1] == bases[..j] + [bases[j]];
      classlist' := classlist' + [bases[j]];
    }
    assert bases[..|bases|] == bases;
  }

  /** The bases of an ancestor are ancestors. */
  lemma BasesInherit(classes: seq<ClassDef>, c: nat, x: nat)
    requires Hierarchy(classes) && c < |classes| && x < |classes| && Inherits(classes, c, x)
    ensures forall j :: 0 <= j < |classes[x].bases| ==> Inherits(classes, c, classes[x].bases[j])
  {
    forall j | 0 <= j < |classes[x].bases|
      ensures Inherits(classes, c, classes[x].bases[j])
    {
      InheritsTrans(classes, c, x, classes[x].bases[j]);
    }
  }

  lemma {:induction false} InheritsTrans(classes: seq<ClassDef>, c: nat, x: nat, b: nat)
    requires Hierarchy(classes) && c < |classes| && x < |classes| && Inherits(classes, c, x)
    requires exists j :: 0 <= j < |classes[x].bases| && classes[x].bases[j] == b
    ensures Inherits(classes, c, b)
    decreases c
  {
    if c == x {
      var j :| 0 <= j < |classes[x].bases| && classes[x].bases[j] == b;
      assert Inherits(classes, classes[x].bases[j], b);
    } else {
      var j :| 0 <= j < |classes[c].bases| && Inherits(classes, classes[c].bases[j], x);
      InheritsTrans(classes, classes[c].bases[j], x, b);
    }
  }

  /** One class's names added to the name list keep the list's invariants. */
  lemma NamesFound(classes: seq<ClassDef>, c: nat, x: nat, seen: set<string>, names0: seq<string>, names: seq<string>, i: nat)
    requires Hierarchy(classes) && c < |classes| && x < |classes| && Inherits(classes, c, x)
    requires i == 0 ==> x == c && names0 == []
    requires i > 0 ==> forall n :: n in classes[c].names ==> n in names0
    requires |names0| <= |names| && names[..|names0|] == names0 && forall j :: |names0| <= j < |names| ==> names[j] in classes[x].names
    requires forall p, q :: 0 <= p < q < |names0| && names0[q] in classes[c].names ==> names0[p] in classes[c].names
    requires Distinct(names)
    ensures forall n :: n in classes[x].names ==> Defines(classes, c, n)
    ensures forall p, q :: 0 <= p < q < |names| && names[q] in classes[c].names ==> names[p] in classes[c].names
  {
    forall p, q | 0 <= p < q < |names| && names[q] in classes[c].names
      ensures names[p] in classes[c].names
    {
      if q < |names0| {
        assert names0[q] == names[q] && names0[p] == names[p];
      }
    }
  }

  // ---------------------------------------------------------------------
  // reflect
  // ---------------------------------------------------------------------

  /** One alternative of the scanner's pattern: `(?P<group>pattern)`. */
  datatype Alt = Alt(group: string, pattern: string)

  /** A token method other than the fallback `t_default`. */
  predicate IsTokenName(n: string) {
    |n| >= 2 && n[..2] == "t_" && n != "t_default"
  }

  /** `makeRE(name)`: the named group `name[2:]` around the method's docstring. */
  function MakeRE(doc: string -> string, name: string): (a: Alt)
    requires |name| >= 2
    ensures "t_" + a.group == name <==> name[..2] == "t_"
  {
    assert name == name[..2] + name[2..];
    Alt(name[2..], doc(name))
  }

  /**
   * `reflect()`: an alternative for every token method in `_namelist`
   * order, then the one for `t_default`. `from` says which name each
   * alternative but the last comes from.
   */
  method Reflect(names: seq<string>, doc: string -> string) returns (alts: seq<Alt>, ghost from: seq<nat>)
    ensures |alts| == |from| + 1 && alts[|alts| - 1] == Alt("default", doc("t_default"))
    ensures forall i :: 0 <= i < |from| ==> from[i] < |names| && IsTokenName(names[from[i]]) && alts[i] == MakeRE(doc, names[from[i]])
    ensures forall i, j :: 0 <= i < j < |from| ==> from[i] < from[j]
    ensures forall k :: 0 <= k < |names| && IsTokenName(names[k]) ==> k in from
  {
    alts, from := [], [];
    for k := 0 to |names|
      invariant |alts| == |from|
      invariant forall i :: 0 <= i < |from| ==> from[i] < k && IsTokenName(names[from[i]]) && alts[i] == MakeRE(doc, names[from[i]])
      invariant forall i, j :: 0 <= i < j < |from| ==> from[i] < from[j]
      invariant forall k' :: 0 <= k' < k && IsTokenName(names[k']) ==> k' in from
    {
      if IsTokenName(names[k]) {
        alts, from := alts + [MakeRE(doc, names[k])], from + [k];
      }
    }
    alts := alts + [MakeRE(doc, "t_default")];
  }

  // ---------------------------------------------------------------------
  // tokenize
  // ---------------------------------------------------------------------

  /** A handler call: `t_<group>(text)`. */
  datatype Lexeme = Lexeme(handler: string, text: string)

  /** `error(s, pos)` when nothing matches; `Stuck` when the match is empty and `tokenize` would loop forever. */
  datatype LexError = LexicalError(pos: nat) | Stuck(pos: nat)

  /**
   * `self.re.match(s, pos)` on the alternation: the first alternative
   * that matches at `pos`, and where its match ends.
   */
  function FirstMatch(alts: seq<Alt>, matches: (string, string, nat) -> Option<nat>, s: string, pos: nat, from: nat): (r: Option<(nat, nat)>)
    requires from <= |alts|
    ensures r.Some? ==> from <= r.value.0 < |alts| && matches(alts[r.value.0].pattern, s, pos) == Some(r.value.1)
    ensures forall i :: from <= i < (if r.Some? then r.value.0 else |alts|) ==> matches(alts[i].pattern, s, pos).None?
    decreases |alts| - from
  {
    if from == |alts| then None
    else match matches(alts[from].pattern, s, pos)
      case Some(e) => Some((from, e))
      case None => FirstMatch(alts, matches, s, pos, from + 1)
  }

  /**
   * What `tokenize(s)` does from `pos` on, as a reference definition: at
   * each position the first alternative that matches, its handler called
   * on the text when it is not empty, and on from the end of the match.
   */
  function Lexed(alts: seq<Alt>, matches: (string, string, nat) -> Option<nat>, s: string, pos: nat): Result<seq<Lexeme>, LexError>
    decreases |s| - pos
  {
    if pos >= |s| then Ok([])
    else match FirstMatch(alts, matches, s, pos, 0)
      case None => Err(LexicalError(pos))
      case Some((i, e)) =>
        if e <= pos then Err(Stuck(pos))
        else match Lexed(alts, matches, s, e)
          case Err(err) => Err(err)
          case Ok(rest) => Ok([Lexeme("t_" + alts[i].group, if e <= |s| then s[pos..e] else s[pos..])] + rest)
  }

  /**
   * `tokenize(s)`: while input is left, match at `pos`, call the handler
   * of each group that matched with a non-empty text, and go on at the
   * end of the match; only the winning alternative's group is set.
   */
  method Tokenize(alts: seq<Alt>, matches: (string, string, nat) -> Option<nat>, s: string) returns (r: Result<seq<Lexeme>, LexError>)
    ensures r == Lexed(alts, matches, s, 0)
  {
    var pos := 0;
    var calls: seq<Lexeme> := [];
    ThenNothing(Lexed(alts, matches, s, 0));
    while pos < |s|
      invariant Lexed(alts, matches, s, 0) == Then(calls, Lexed(alts, matches, s, pos))
      decreases |s| - pos
    {
      var m := FirstMatch(alts, matches, s, pos, 0);
      if m.None? {
        return Err(LexicalError(pos));
      }
      var (i, e) := m.value;
      if e <= pos {
        return Err(Stuck(pos));
      }
      ThenAppend(calls, Lexeme("t_" + alts[i].group, if e <= |s| then s[pos..e] else s[pos..]), Lexed(alts, matches, s, e));
      calls := calls + [Lexeme("t_" + alts[i].group, if e <= |s| then s[pos..e] else s[pos..])];
      pos := e;
    }
    assert calls + [] == calls;
    r := Ok(calls);
  }

  /** The calls made so far, in front of what is still to come. */
  function Then(calls: seq<Lexeme>, rest: Result<seq<Lexeme>, LexError>): Result<seq<Lexeme>, LexError> {
    match rest
    case Err(err) => Err(err)
    case Ok(ls) => Ok(calls + ls)
  }

  lemma ThenNothing(rest: Result<seq<Lexeme>, LexError>)
    ensures Then([], rest) == rest
  {
    if rest.Ok? {
      assert [] + rest.value == rest.value;
    }
  }

  lemma ThenAppend(calls: seq<Lexeme>, l: Lexeme, rest: Result<seq<Lexeme>, LexError>)
    ensures Then(calls, Then([l], rest)) == Then(calls + [l], rest)
  {
    if rest.Ok? {
      assert calls + ([l] + rest.value) == (calls + [l]) + rest.value;
    }
  }

  /** The texts handed to the handlers, one after the other. */
  function Texts(ls: seq<Lexeme>): string {
    if ls == [] then [] else ls[0].text + Texts(ls[1..])
  }

  /** Each alternative matches within the string, as `re.match` does. */
  ghost predicate Bounded(alts: seq<Alt>, matches: (string, string, nat) -> Option<nat>, s: string) {
    forall i, pos, e :: 0 <= i < |alts| && matches(alts[i].pattern, s, pos) == Some(e) ==> e <= |s|
  }

  /** A successful `tokenize` hands the whole input to the handlers, in order and without gaps. */
  lemma {:induction false} LexedCovers(alts: seq<Alt>, matches: (string, string, nat) -> Option<nat>, s: string, pos: nat)
    requires pos <= |s| && Bounded(alts, matches, s) && Lexed(alts, matches, s, pos).Ok?
    ensures Texts(Lexed(alts, matches, s, pos).value) == s[pos..]
    decreases |s| - pos
  {
    if pos < |s| {
      var m := FirstMatch(alts, matches, s, pos, 0);
      var (i, e) := m.value;
      LexedCovers(alts, matches, s, e);
      var ls := Lexed(alts, matches, s, pos).value;
      assert ls[1..] == Lexed(alts, matches, s, e).value;
      assert s[pos..] == s[pos..e] + s[e..];
    }
  }

  /**
   * Every handler call comes from the first alternative that matches where
   * its text starts, so an earlier `t_` method wins over a later one.
   */
  lemma {:induction false} LexedFirst(alts: seq<Alt>, matches: (string, string, nat) -> Option<nat>, s: string, pos: nat)
    requires Lexed(alts, matches, s, pos).Ok? && Lexed(alts, matches, s, pos).value != []
    ensures exists i: nat, e: nat ::
      (&& FirstMatch(alts, matches, s, pos, 0) == Some((i, e)) && pos < e
       && Lexed(alts, matches, s, pos).value[0].handler == "t_" + alts[i].group
       && forall i' :: 0 <= i' < i ==> matches(alts[i'].pattern, s, pos).None?)
  {
    var (i, e) := FirstMatch(alts, matches, s, pos, 0).value;
    assert Lexed(alts, matches, s, pos).value[0].handler == "t_" + alts[i].group;
  }

  /** `tokenize` reports a lexical error only at a position of the input where no alternative matches. */
  lemma {:induction false} LexicalErrorAt(alts: seq<Alt>, matches: (string, string, nat) -> Option<nat>, s: string, pos: nat, p: nat)
    requires Lexed(alts, matches, s, pos) == Err(LexicalError(p))
    ensures pos <= p < |s| && forall i :: 0 <= i < |alts| ==> matches(alts[i].pattern, s, p).None?
    decreases |s| - pos
  {
    var m := FirstMatch(alts, matches, s, pos, 0);
    if m.Some? {
      LexicalErrorAt(alts, matches, s, m.value.1, p);
    }
  }

  /** `tokenize` loops only where the winning alternative matches the empty string. */
  lemma {:induction false} StuckAt(alts: seq<Alt>, matches: (string, string, nat) -> Option<nat>, s: string, pos: nat, p: nat)
    requires Lexed(alts, matches, s, pos) == Err(Stuck(p))
    ensures pos <= p < |s|
    ensures exists i: nat, e: nat :: FirstMatch(alts, matches, s, p, 0) == Some((i, e)) && e <= p
    decreases |s| - pos
  {
    var m := FirstMatch(alts, matches, s, pos, 0);
    if m.value.1 > pos {
      StuckAt(alts, matches, s, m.value.1, p);
    }
  }
}
