/**
 * What the parser hands to and gets from the user's semantic actions:
 * tokens, the values actions return, the actions themselves (opaque user
 * functions, the start rule's `lambda args: args[1]`, and the actions the
 * AST builder and matcher install in `preprocess`), and the errors a parse
 * can end in.
 */
module Values {
  import opened Wrappers

  /** An AST node as the traversal and the matcher see it: a type and children. */
  datatype Ast = Ast(kind: string, kids: seq<Ast>)

  /**
   * A token: a word, or (for the matcher) an AST node. It equals a terminal
   * `t` when its text, or the node's type, is `t`.
   */
  datatype Token = Word(text: string) | AstToken(node: Ast)

  function TokenText(tok: Token): string {
    match tok
    case Word(s) => s
    case AstToken(n) => n.kind
  }

  /**
   * A value of the parse: `None`, a token, the result of a user action (a
   * term naming the action and its arguments, since user code is opaque), or
   * a node built by `GenericASTBuilder`.
   */
  datatype Value = Nothing | Tok(token: Token) | Call(action: string, args: seq<Value>) | Node(kind: string, kids: seq<Value>)

  /**
   * The function `rule2func` maps a rule to: a user `p_` method, the
   * start rule's `lambda args: args[1]`, the builder's `buildASTNode`
   * bound to the rule's lhs, or the matcher's `foundMatch` bound to a user
   * method.
   */
  datatype Handler = User(name: string) | TakeSecond | BuildNode(lhs: string) | FoundMatch(name: string)

  /**
   * How a parse fails: `error(token)` (a syntax error near a token, or at
   * end of input), a Python exception, or the fuel bound running out.
   */
  datatype ParseError = SyntaxError(near: Option<Token>) | Crash(reason: string) | OutOfFuel

  /**
   * `GenericASTBuilder.buildASTNode`: a node of type `lhs` whose children
   * are the arguments in order (`terminal` is the identity on tokens).
   * `Forest.BuilderTree` states what it gives for a derivation.
   */
  function BuildASTNode(args: seq<Value>, lhs: string): (r: Value)
    ensures r.Node? && r.kind == lhs && |r.kids| == |args|
    ensures forall j :: 0 <= j < |args| ==> r.kids[j] == args[j]
  {
    Node(lhs, args)
  }

  /**
   * `GenericASTMatcher.foundMatch`: the user method is called on the last
   * argument (its side effect is not modelled) and that argument is the
   * value; an empty argument list raises `IndexError`. `Apply` states
   * which action reaches it, `Forest.BuilderTree` what the builder's gives.
   */
  function FoundMatchValue(args: seq<Value>): (r: Result<Value, ParseError>)
    ensures r.Ok? <==> |args| > 0
    ensures r.Ok? ==> r.value == args[|args| - 1]
  {
    if |args| == 0 then Err(Crash("IndexError")) else Ok(args[|args| - 1])
  }

  /** Calling a rule's action on its attribute list; `Forest.BuilderTree` states it for the builder's actions. */
  function Apply(h: Handler, args: seq<Value>): (r: Result<Value, ParseError>)
    ensures h.User? ==> r == Ok(Call(h.name, args))
    ensures h.TakeSecond? ==> (r.Ok? <==> |args| >= 2) && (r.Ok? ==> r.value == args[1])
    ensures h.BuildNode? ==> r == Ok(BuildASTNode(args, h.lhs))
    ensures h.FoundMatch? ==> r == FoundMatchValue(args)
  {
    match h
    case User(name) => Ok(Call(name, args))
    case TakeSecond => if |args| >= 2 then Ok(args[1]) else Err(Crash("IndexError"))
    case BuildNode(lhs) => Ok(BuildASTNode(args, lhs))
    case FoundMatch(_) => FoundMatchValue(args)
  }
}
