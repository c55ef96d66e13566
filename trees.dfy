/**
 * The tree side of the toolkit: the input `GenericASTMatcher.match_r`
 * builds from a tree, and the visits of `GenericASTTraversal.preorder`
 * and `postorder` with their handler dispatch and `prune`.
 */
module Trees {
  import opened Ordering
  import opened Values

  // ---------------------------------------------------------------------
  // match_r: each call inserts at the front of `self.input`, so the input
  // ends up as the prefix form of the tree read backwards.
  // ---------------------------------------------------------------------

  /** The prefix form of a tree: the node, then `(`, its children in order and `)` when it has any. */
  function Serialised(node: Ast): seq<Token>
    decreases node, |node.kids| + 1
  {
    if node.kids == [] then [AstToken(node)]
    else [AstToken(node), Word("(")] + SerialisedKids(node, |node.kids|) + [Word(")")]
  }

  /** The prefix forms of the first `n` children, in order. */
  function SerialisedKids(node: Ast, n: nat): seq<Token>
    requires n <= |node.kids|
    decreases node, n
  {
    if n == 0 then [] else SerialisedKids(node, n - 1) + Serialised(node.kids[n - 1])
  }

  /**
   * What `match_r(node)` puts in front of `self.input`: the node; when it
   * has children, `(` in front of that, then what each child puts in front,
   * and finally `)`.
   */
  function Flipped(node: Ast): seq<Token>
    decreases node, |node.kids| + 1
  {
    if node.kids == [] then [AstToken(node)]
    else [Word(")")] + FlippedKids(node, |node.kids|) + [Word("("), AstToken(node)]
  }

  /** What the calls of `match_r` on the first `n` children put in front, the last call's part first. */
  function FlippedKids(node: Ast, n: nat): seq<Token>
    requires n <= |node.kids|
    decreases node, n
  {
    if n == 0 then [] else Flipped(node.kids[n - 1]) + FlippedKids(node, n - 1)
  }

  /** The matcher's input is the tree's prefix form reversed (its rules are reversed to match). */
  lemma {:induction false} FlippedReversed(node: Ast)
    ensures Flipped(node) == Reverse(Serialised(node))
    decreases node, |node.kids| + 1
  {
    if node.kids != [] {
      var kids := SerialisedKids(node, |node.kids|);
      FlippedKidsReversed(node, |node.kids|);
      ReverseAppend([AstToken(node), Word("(")] + kids, [Word(")")]);
      ReverseAppend([AstToken(node), Word("(")], kids);
      assert Reverse([AstToken(node), Word("(")]) == [Word("("), AstToken(node)];
      assert Reverse([Word(")")]) == [Word(")")];
    }
  }

  lemma {:induction false} FlippedKidsReversed(node: Ast, n: nat)
    requires n <= |node.kids|
    ensures FlippedKids(node, n) == Reverse(SerialisedKids(node, n))
    decreases node, n
  {
    if n > 0 {
      FlippedReversed(node.kids[n - 1]);
      FlippedKidsReversed(node, n - 1);
      ReverseAppend(SerialisedKids(node, n - 1), Serialised(node.kids[n - 1]));
    }
  }

  // ---------------------------------------------------------------------
  // preorder and postorder
  // ---------------------------------------------------------------------

  /** One call of a handler on a node: `n_<type>` or `default`, or with `exit` the hook `n_<type>_exit`. */
  datatype Event = Event(name: string, node: Ast, exit: bool)

  /** The calls of a traversal, and whether a `prune` escaped from it. */
  datatype Run = Run(events: seq<Event>, escaped: bool)

  /** The handler `preorder` and `postorder` call: `n_<type>` when the visitor has it, `default` otherwise. */
  function Dispatch(handlers: set<string>, node: Ast): string {
    if "n_" + node.kind in handlers then "n_" + node.kind else "default"
  }

  /**
   * `preorder(node)`: the handler of the node; a `prune` raised there ends
   * the visit of the node quietly. Then the children in order, and the exit
   * hook when the visitor has one. A `prune` from an exit hook is not
   * caught: it escapes and stops the whole traversal.
   */
  function PreorderRun(handlers: set<string>, prunes: (string, Ast) -> bool, node: Ast): (r: Run)
    decreases node, |node.kids| + 1
  {
    var enter := Event(Dispatch(handlers, node), node, false);
    if prunes(enter.name, node) then Run([enter], false)
    else
      var kids := PreorderKids(handlers, prunes, node, |node.kids|);
      var exit := "n_" + node.kind + "_exit";
      if kids.escaped then Run([enter] + kids.events, true)
      else if exit in handlers then Run([enter] + kids.events + [Event(exit, node, true)], prunes(exit, node))
      else Run([enter] + kids.events, false)
  }

  /** `preorder` on the first `n` children, stopping at an escaped `prune`. */
  function PreorderKids(handlers: set<string>, prunes: (string, Ast) -> bool, node: Ast, n: nat): (r: Run)
    requires n <= |node.kids|
    decreases node, n
  {
    if n == 0 then Run([], false)
    else
      var before := PreorderKids(handlers, prunes, node, n - 1);
      if before.escaped then before
      else
        var kid := PreorderRun(handlers, prunes, node.kids[n - 1]);
        Run(before.events + kid.events, kid.escaped)
  }

  /** `postorder(node)`: the children in order, then the handler of the node; every `prune` escapes. */
  function PostorderRun(handlers: set<string>, prunes: (string, Ast) -> bool, node: Ast): (r: Run)
    decreases node, |node.kids| + 1
  {
    var kids := PostorderKids(handlers, prunes, node, |node.kids|);
    var name := Dispatch(handlers, node);
    if kids.escaped then kids
    else Run(kids.events + [Event(name, node, false)], prunes(name, node))
  }

  /** `postorder` on the first `n` children, stopping at an escaped `prune`. */
  function PostorderKids(handlers: set<string>, prunes: (string, Ast) -> bool, node: Ast, n: nat): (r: Run)
    requires n <= |node.kids|
    decreases node, n
  {
    if n == 0 then Run([], false)
    else
      var before := PostorderKids(handlers, prunes, node, n - 1);
      if before.escaped then before
      else
        var kid := PostorderRun(handlers, prunes, node.kids[n - 1]);
        Run(before.events + kid.events, kid.escaped)
  }

  /** Once a `prune` escaped from a child, the later children are not visited. */
  lemma {:induction false} PreorderStops(handlers: set<string>, prunes: (string, Ast) -> bool, node: Ast, j: nat, n: nat)
    requires j <= n <= |node.kids| && PreorderKids(handlers, prunes, node, j).escaped
    ensures PreorderKids(handlers, prunes, node, n) == PreorderKids(handlers, prunes, node, j)
    decreases n
  {
    if n > j {
      PreorderStops(handlers, prunes, node, j, n - 1);
    }
  }

  lemma {:induction false} PostorderStops(handlers: set<string>, prunes: (string, Ast) -> bool, node: Ast, j: nat, n: nat)
    requires j <= n <= |node.kids| && PostorderKids(handlers, prunes, node, j).escaped
    ensures PostorderKids(handlers, prunes, node, n) == PostorderKids(handlers, prunes, node, j)
    decreases n
  {
    if n > j {
      PostorderStops(handlers, prunes, node, j, n - 1);
    }
  }

  /** The nodes a list of calls visits, in order (exit hooks left out). */
  function Entered(events: seq<Event>): seq<Ast> {
    if events == [] then []
    else Entered(events[..|events| - 1]) + (if events[|events| - 1].exit then [] else [events[|events| - 1].node])
  }

  lemma {:induction false} EnteredAppend(a: seq<Event>, b: seq<Event>)
    ensures Entered(a + b) == Entered(a) + Entered(b)
    decreases |b|
  {
    if b == [] {
      assert a + b == a;
    } else {
      assert (a + b)[..|a + b| - 1] == a + b[..|b| - 1];
      EnteredAppend(a, b[..|b| - 1]);
    }
  }

  /** The nodes of a tree, each before its children. */
  function PreorderNodes(node: Ast): seq<Ast>
    decreases node, |node.kids| + 1
  {
    [node] + PreorderNodesKids(node, |node.kids|)
  }

  function PreorderNodesKids(node: Ast, n: nat): seq<Ast>
    requires n <= |node.kids|
    decreases node, n
  {
    if n == 0 then [] else PreorderNodesKids(node, n - 1) + PreorderNodes(node.kids[n - 1])
  }

  /** The nodes of a tree, each after its children. */
  function PostorderNodes(node: Ast): seq<Ast>
    decreases node, |node.kids| + 1
  {
    PostorderNodesKids(node, |node.kids|) + [node]
  }

  function PostorderNodesKids(node: Ast, n: nat): seq<Ast>
    requires n <= |node.kids|
    decreases node, n
  {
    if n == 0 then [] else PostorderNodesKids(node, n - 1) + PostorderNodes(node.kids[n - 1])
  }

  /** No handler prunes. */
  ghost predicate NeverPrunes(prunes: (string, Ast) -> bool) {
    forall name, node :: !prunes(name, node)
  }

  /** Without `prune`, `preorder` calls a handler on every node, each before its children. */
  lemma {:induction false} PreorderVisitsAll(handlers: set<string>, prunes: (string, Ast) -> bool, node: Ast)
    requires NeverPrunes(prunes)
    ensures !PreorderRun(handlers, prunes, node).escaped
    ensures Entered(PreorderRun(handlers, prunes, node).events) == PreorderNodes(node)
    decreases node, |node.kids| + 1
  {
    var enter := Event(Dispatch(handlers, node), node, false);
    var kids := PreorderKids(handlers, prunes, node, |node.kids|);
    PreorderKidsVisitAll(handlers, prunes, node, |node.kids|);
    EnteredAppend([enter], kids.events);
    assert Entered([enter]) == [node] by { assert [enter][..0] == []; }
    var exit := Event("n_" + node.kind + "_exit", node, true);
    EnteredAppend([enter] + kids.events, [exit]);
    assert Entered([exit]) == [] by { assert [exit][..0] == []; }
  }

  lemma {:induction false} PreorderKidsVisitAll(handlers: set<string>, prunes: (string, Ast) -> bool, node: Ast, n: nat)
    requires NeverPrunes(prunes) && n <= |node.kids|
    ensures !PreorderKids(handlers, prunes, node, n).escaped
    ensures Entered(PreorderKids(handlers, prunes, node, n).events) == PreorderNodesKids(node, n)
    decreases node, n
  {
    if n > 0 {
      PreorderKidsVisitAll(handlers, prunes, node, n - 1);
      PreorderVisitsAll(handlers, prunes, node.kids[n - 1]);
      EnteredAppend(PreorderKids(handlers, prunes, node, n - 1).events, PreorderRun(handlers, prunes, node.kids[n - 1]).events);
    }
  }

  /** Without `prune`, `postorder` calls a handler on every node, each after its children. */
  lemma {:induction false} PostorderVisitsAll(handlers: set<string>, prunes: (string, Ast) -> bool, node: Ast)
    requires NeverPrunes(prunes)
    ensures !PostorderRun(handlers, prunes, node).escaped
    ensures Entered(PostorderRun(handlers, prunes, node).events) == PostorderNodes(node)
    decreases node, |node.kids| + 1
  {
    var kids := PostorderKids(handlers, prunes, node, |node.kids|);
    var call := Event(Dispatch(handlers, node), node, false);
    PostorderKidsVisitAll(handlers, prunes, node, |node.kids|);
    EnteredAppend(kids.events, [call]);
    assert Entered([call]) == [node] by { assert [call][..0] == []; }
  }

  lemma {:induction false} PostorderKidsVisitAll(handlers: set<string>, prunes: (string, Ast) -> bool, node: Ast, n: nat)
    requires NeverPrunes(prunes) && n <= |node.kids|
    ensures !PostorderKids(handlers, prunes, node, n).escaped
    ensures Entered(PostorderKids(handlers, prunes, node, n).events) == PostorderNodesKids(node, n)
    decreases node, n
  {
    if n > 0 {
      PostorderKidsVisitAll(handlers, prunes, node, n - 1);
      PostorderVisitsAll(handlers, prunes, node.kids[n - 1]);
      EnteredAppend(PostorderKids(handlers, prunes, node, n - 1).events, PostorderRun(handlers, prunes, node.kids[n - 1]).events);
    }
  }

  /** Both orders visit the same nodes, as often. */
  lemma {:induction false} OrdersAgree(node: Ast)
    ensures multiset(PreorderNodes(node)) == multiset(PostorderNodes(node))
    decreases node, |node.kids| + 1
  {
    OrdersAgreeKids(node, |node.kids|);
  }

  lemma {:induction false} OrdersAgreeKids(node: Ast, n: nat)
    requires n <= |node.kids|
    ensures multiset(PreorderNodesKids(node, n)) == multiset(PostorderNodesKids(node, n))
    decreases node, n
  {
    if n > 0 {
      OrdersAgreeKids(node, n - 1);
      OrdersAgree(node.kids[n - 1]);
    }
  }

  /**
   * `GenericASTTraversal`: the visitor's handlers (`n_<type>`, `default`,
   * the exit hooks), which of their calls raise `prune`, and the calls made
   * so far.
   */
  class GenericASTTraversal {
    const ast: Ast
    /** The `n_...` methods the visitor has (`hasattr`). */
    const handlers: set<string>
    /** Whether calling the named handler on a node raises `prune`. */
    const prunes: (string, Ast) -> bool
    /** The handler calls made so far. */
    var trace: seq<Event>

    constructor(ast: Ast, handlers: set<string>, prunes: (string, Ast) -> bool)
      ensures this.ast == ast && this.handlers == handlers && this.prunes == prunes && trace == []
    {
      this.ast := ast;
      this.handlers := handlers;
      this.prunes := prunes;
      trace := [];
    }

    /** `preorder(node)`; `escaped` is a `prune` the caller receives. */
    method Preorder(node: Ast) returns (escaped: bool)
      modifies this`trace
      ensures trace == old(trace) + PreorderRun(handlers, prunes, node).events
      ensures escaped == PreorderRun(handlers, prunes, node).escaped
      decreases node
    {
      var name := "n_" + node.kind;
      var enter := Event(Dispatch(handlers, node), node, false);
      trace := trace + [enter];
      if prunes(enter.name, node) {
        return false;
      }
      var j := 0;
      while j < |node.kids|
        invariant j <= |node.kids| && !PreorderKids(handlers, prunes, node, j).escaped
        invariant trace == old(trace) + [enter] + PreorderKids(handlers, prunes, node, j).events
      {
        var e := Preorder(node.kids[j]);
        assert trace == old(trace) + [enter] + PreorderKids(handlers, prunes, node, j + 1).events;
        if e {
          PreorderStops(handlers, prunes, node, j + 1, |node.kids|);
          return true;
        }
        j := j + 1;
      }
      name := name + "_exit";
      if name in handlers {
        trace := trace + [Event(name, node, true)];
        return prunes(name, node);
      }
      return false;
    }

    /** `postorder(node)`; `escaped` is a `prune` the caller receives. */
    method Postorder(node: Ast) returns (escaped: bool)
      modifies this`trace
      ensures trace == old(trace) + PostorderRun(handlers, prunes, node).events
      ensures escaped == PostorderRun(handlers, prunes, node).escaped
      decreases node
    {
      var j := 0;
      while j < |node.kids|
        invariant j <= |node.kids| && !PostorderKids(handlers, prunes, node, j).escaped
        invariant trace == old(trace) + PostorderKids(handlers, prunes, node, j).events
      {
        var e := Postorder(node.kids[j]);
        assert trace == old(trace) + PostorderKids(handlers, prunes, node, j + 1).events;
        if e {
          PostorderStops(handlers, prunes, node, j + 1, |node.kids|);
          return true;
        }
        j := j + 1;
      }
      var name := Dispatch(handlers, node);
      trace := trace + [Event(name, node, false)];
      return prunes(name, node);
    }
  }
}
