# SPARK toolkit (Earley parser generator) in Dafny

This project models the core of the SPARK toolkit that avocado ships in
`avocado/utils/external/spark.py`. SPARK is a "little language" kit:

- a **scanner** built from the `t_` methods of a class, whose docstrings are
  regular expressions (`_namelist`, `reflect`, `makeRE`, `tokenize`);
- an **Earley parser** in the Aycock–Horspool formulation, built from the `p_`
  methods, whose docstrings are grammar rules (`addRule`, `collectRules`,
  `augment`). It parses with:
  - the nullable fixpoint (`computeNull`);
  - the epsilon-free rewrite (`makeNewRules`);
  - a lazily built LR(0)-like automaton (`makeState0`, `makeState`, `goto`,
    `gotoT`, `gotoST`, `skip`);
  - the Earley sets (`add`, `makeSet`) and the acceptance test (`parse`,
    `finalState`);
  - the tree walk (`predecessor`, `causal`, `deriveEpsilon`, `buildTree`),
    with ambiguity resolved by `ambiguity`/`resolve`;
- **GenericASTBuilder**, which turns every rule's action into node
  construction;
- **GenericASTTraversal**, a pre-order and post-order visitor with `prune`;
- **GenericASTMatcher**, which serialises a tree and parses it with
  reversed rules.

The model is split into modules that follow the program:

| file | module | what it holds |
|---|---|---|
| `wrappers.dfy` | `Wrappers` | `Option`, `Result` |
| `ordering.dfy` | `Ordering` | Python's order on strings and tuples, `list.sort` (an insertion sort), canonical sorted keys, `reverse` |
| `grammar.dfy` | `Grammar` | symbols, rules, items; `doc.split()`; the rule text `addRule` parses; `skip` |
| `nullable.dfy` | `Nullable` | `computeNull` against the least fixpoint of "derives the empty string" |
| `rewrite.dfy` | `Rewrite` | `makeNewRules`, proved sound and complete against the set of epsilon-free variants |
| `states.dfy` | `States` | `_State`, the kernel and the two passes of `makeState` |
| `automata.dfy` | `Automata` | the automaton (`states`, `edges`, `cores`) as a value; `makeState0`, `makeState`, `goto`, `gotoT`, `gotoST` |
| `values.dfy` | `Values` | trees, tokens, the actions `rule2func` holds, parse errors |
| `forest.dfy` | `Forest` | the Earley items and links; `predecessor`, `causal`, `ambiguity`, `resolve`, `deriveEpsilon`, `buildTree` |
| `earley.dfy` | `Earley` | `add`, `makeSet` and the token loop of `parse` |
| `driver.dfy` | `Driver` | the rebuild of the tables, `finalState`, and the acceptance test and tree building |
| `trees.dfy` | `Trees` | `GenericASTTraversal` (a class over a handler trace), and the serialised form `match_r` builds |
| `parser.dfy` | `Parser` | the `GenericParser` class with its builder and matcher flavours, `addRule`/`collectRules`/`augment`, `parse`, `match_r`, `match` |
| `scanner.dfy` | `Scanner` | `_namelist`, `makeRE`, `reflect`, `tokenize` |

**What becomes what, and the mutable state:**

- The Python dicts `self.states`, `self.edges` and `self.cores` are one value,
  `Machine`.
  - `Good` says every state, edge and memoised core means what `makeState`
    puts there.
  - `Extends` says how the automaton may grow.
  - Methods that touch the automaton take a `Machine` and return the new one.
- The parser object itself is a `class` (`Parser.GenericParser`) whose fields
  the methods reassign.
- The visitor records the handler calls it makes in a `trace` field.
- What user code would do is taken as a parameter:
  - the regular-expression engine;
  - `typestring`;
  - the visitor's handler set and its `prune` decisions;
  - the docstrings of the `p_` and `t_` methods;
  - the class hierarchy `_namelist` walks.
- User actions stay opaque: a parse value is a term naming the action and its
  arguments.

## Model

| member | source | states |
|---|---|---|
| Scanner.Namelist | avocado/utils/external/spark.py:27-36 | the names of the class and of all its bases, each once; a name is listed exactly when the class or an ancestor defines it; the class's own names come first and all of them are listed |
| Scanner.Visit | avocado/utils/external/spark.py:29-35 | one turn of the loop over `classlist`: queue the bases, append the unseen names; keeps the loop's invariant over the visited prefix |
| Scanner.AddNames | avocado/utils/external/spark.py:32-35 | the names of one class not yet seen are appended in order, and `namedict` grows by exactly those |
| Scanner.Enqueue | avocado/utils/external/spark.py:30-31 | the bases are appended to `classlist` in order |
| Scanner.MakeRE | avocado/utils/external/spark.py:48-51 | the group is named `name[2:]`, so it maps back to the method `t_` + group exactly when the name starts with `t_` |
| Scanner.Reflect | avocado/utils/external/spark.py:53-60 | one alternative per token method in `_namelist` order, all of them and only them, each `makeRE` of its name; `t_default` is last |
| Scanner.FirstMatch | avocado/utils/external/spark.py:71 | the leftmost alternative that matches at `pos` and where its match ends; no earlier alternative matches there |
| Scanner.Tokenize | avocado/utils/external/spark.py:67-79 | the handler calls and the lexical error of the loop equal the reference definition `Lexed`, which applies the first match at each position |
| Scanner.LexedCovers | avocado/utils/external/spark.py:67-79 | a successful tokenize hands the whole input to the handlers, in order and without gaps |
| Scanner.LexedFirst | avocado/utils/external/spark.py:71-78 | each handler call comes from the first alternative matching where its text starts, so an earlier `t_` method wins |
| Scanner.LexicalErrorAt | avocado/utils/external/spark.py:72-73 | `error(s, pos)` is reached only at a position inside the input where no alternative matches |
| Scanner.StuckAt | avocado/utils/external/spark.py:79 | the loop makes no progress only where the winning alternative matches the empty string |
| Ordering.StrLessIsStrictTotal | avocado/utils/external/spark.py:429 | Python's order on strings, used by `sorted(predicted.keys())`, is a strict total order |
| Ordering.Sort | avocado/utils/external/spark.py:373 | `sort` keeps the multiset of elements |
| Ordering.SortSorted | avocado/utils/external/spark.py:373 | under a strict total order the result of `sort` is sorted |
| Ordering.SortedUnique | avocado/utils/external/spark.py:373-376 | two sorted lists with the same elements are equal |
| Ordering.SortCanonical | avocado/utils/external/spark.py:373-376 | two lists sort to the same tuple exactly when they hold the same elements |
| Ordering.ReverseMultiset | avocado/utils/external/spark.py:815-816 | `reverse` keeps the elements |
| Grammar.Tagged | avocado/utils/external/spark.py:287 | `_NULLABLE + sym` is a nullable-tagged symbol whose remainder is `sym` |
| Grammar.Skip | avocado/utils/external/spark.py:352-358 | the first position at or after `pos` whose symbol is not tagged nullable; every symbol skipped is tagged |
| Grammar.ItemLessIsStrictTotal | avocado/utils/external/spark.py:373 | the tuple order on items `(rule, pos)` is a strict total order |
| Grammar.MarkersCorrect | avocado/utils/external/spark.py:186-190 | `index` holds the position before each `::=`, in order, then `len(rules)` |
| Grammar.PySlice | avocado/utils/external/spark.py:194 | a Python slice of the words is empty when its bounds cross |
| Grammar.ParseRules | avocado/utils/external/spark.py:192-195 | one rule per `::=` |
| Grammar.OneRulePerMarker | avocado/utils/external/spark.py:186-195 | the number of rules is the number of `::=` words |
| Grammar.ParseRender | avocado/utils/external/spark.py:184-195 | round trip: parsing the rendered text of rules with proper words gives back the rules |
| Grammar.WordsSpec | avocado/utils/external/spark.py:184 | `split()` yields non-empty words, none holding a character Python's `str.isspace` accepts (ASCII 9-13 and 28-32, and the Unicode spaces and separators) |
| Grammar.AugmentWords | avocado/utils/external/spark.py:216 | the text `augment` builds splits into `START`, `::=`, `\|-` and the words of `start` |
| Nullable.ComputeNullable | avocado/utils/external/spark.py:219-253 | `nullable` has one entry per lhs, and it is set exactly for the nonterminals that derive the empty string (the least fixpoint) |
| Nullable.SeedNullable | avocado/utils/external/spark.py:220-241 | the first loop: every lhs entered; a rule with an empty rhs marks its lhs; `tbd` holds the rules made only of nonterminals |
| Nullable.SeedOne | avocado/utils/external/spark.py:224-241 | one rule list of the first loop keeps the seeding invariant |
| Nullable.AllKnown | avocado/utils/external/spark.py:237-241 | the `for`/`else` reaches `else` exactly when every symbol is a nonterminal |
| Nullable.NullPass | avocado/utils/external/spark.py:244-253 | one pass of `while changes`: marks only nullable symbols; a change strictly shrinks the unmarked set; no change means every pending rule is settled |
| Nullable.AllNullableNow | avocado/utils/external/spark.py:248-251 | the inner `for`/`else` reaches `else` exactly when every symbol is marked |
| Nullable.Mark | avocado/utils/external/spark.py:252-253 | marking a symbol the fixpoint contains keeps soundness and strictly shrinks the unmarked set |
| Nullable.LeastIsFixpoint | avocado/utils/external/spark.py:242-253 | a symbol is in the least fixpoint exactly when one of its rules has only symbols in it |
| Rewrite.MakeNewRules | avocado/utils/external/spark.py:270-301 | every produced rule is an epsilon-free variant of the user rule `new2old` names (tagged when all its symbols were substituted), and every such variant of every user rule is produced |
| Rewrite.InitialWorklist | avocado/utils/external/spark.py:271-274 | the worklist starts with exactly the user rules, at position 0, as candidates |
| Rewrite.Expand | avocado/utils/external/spark.py:279-292 | the inner `while`: one child per nullable nonterminal at or after `i`; the rule stays a candidate only when none is passed over; the children weigh less |
| Rewrite.EmittedVariant | avocado/utils/external/spark.py:293-300 | the rule recorded in the `else` branch is a variant of its original rule |
| Rewrite.StepComplete | avocado/utils/external/spark.py:276-301 | after a worklist entry is processed, every variant it stands for is produced or covered by a later entry |
| States.Kernel | avocado/utils/external/spark.py:366-373 | the kernel computed by the loop is the sorted list of shifted items |
| States.ShiftedMembers | avocado/utils/external/spark.py:367-370 | the shifted items are exactly the items with the dot before `sym`, moved past it and past the nullable symbols after it |
| States.KernelSorted | avocado/utils/external/spark.py:373 | the kernel is a sorted permutation of the shifted items |
| States.KernelKeyCanonical | avocado/utils/external/spark.py:373-376 | two kernels get the same memo key exactly when they hold the same items |
| States.CompletedMembers | avocado/utils/external/spark.py:393-395 | `complete` lists exactly the rules of items whose dot is at the end |
| States.NextTerminalsMembers | avocado/utils/external/spark.py:399-402 | `t` lists exactly the terminals after a dot |
| States.DedupDistinct | avocado/utils/external/spark.py:400-402 | a terminal enters `t` only once |
| States.PredictAllMembers | avocado/utils/external/spark.py:405-410 | the predicted items are exactly the rules of the predicted nonterminals, with the dot past their nullable prefix |
| States.Predict | avocado/utils/external/spark.py:407-410 | the `for prule` loop appends the prediction of each rule in order |
| States.Visit | avocado/utils/external/spark.py:390-410 | one worklist item keeps the pass invariant: complete, terminal edges and predictions recorded |
| States.KernelPass | avocado/utils/external/spark.py:388-419 | the pass over the kernel state: its completed rules, terminals and edges, and the nonterminals it predicts |
| States.NonKernelPass | avocado/utils/external/spark.py:388-410 | the pass over the growing non-kernel worklist, with its edges kept apart |
| States.Closure | avocado/utils/external/spark.py:388-410 | the non-kernel items are the prediction closure of the kernel |
| Forest.FirstPred | avocado/utils/external/spark.py:596-599 | the predecessor of the first link with the given cause, and the `assert 0` crash when none has it |
| Forest.LastCause | avocado/utils/external/spark.py:605-611 | the cause `rule2cause` keeps for a rule is that of the last link naming the rule |
| Forest.Causal | avocado/utils/external/spark.py:601-611 | a single link's cause; with several, `TypeError` if one has no cause, otherwise the last cause recorded for the rule `ambiguity` picks among the causes' rules: a rule named like one of least key `(len(rhs), name)` (greatest for the matcher), the last of that name |
| Forest.LastIndex | avocado/utils/external/spark.py:664-669 | `name2index` keeps the last index under each name |
| Forest.Ambiguity | avocado/utils/external/spark.py:657-672 | succeeds exactly when every rule has a name and there is one, and returns one of the given rules |
| Forest.AmbiguityChoice | avocado/utils/external/spark.py:657-672 | the chosen rule is the last rule bearing the name of the least (or, for the matcher, the greatest) sorted pair |
| Forest.AmbiguityOrdering | avocado/utils/external/spark.py:663-681 | with distinct names, the chosen rule has the shortest rhs, then the least name (the matcher: the longest) |
| Forest.Choices | avocado/utils/external/spark.py:629-632 | exactly the completed rules of the state whose lhs is `nt` |
| Forest.Choose | avocado/utils/external/spark.py:633-635 | `IndexError` for no choice, the only choice when there is one, otherwise `ambiguity`'s pick among them: a rule named like one of least key `(len(rhs), name)` (greatest for the matcher), the last of that name, and an error when a rule has no name |
| Forest.DeriveEpsilon | avocado/utils/external/spark.py:613-624 | the action of a chosen rule of `nt` applied to one value per rhs symbol |
| Forest.DeriveAll | avocado/utils/external/spark.py:620-623 | the right-to-left loop fills one value per position |
| Forest.BuildTree | avocado/utils/external/spark.py:626-655 | the action of a completed rule of `nt` in the item's state, applied to one value per rhs symbol |
| Forest.BuilderTree | avocado/utils/external/spark.py:706-724 | with the AST builder's actions, `buildTree` of a nonterminal other than `START` gives a node of that type with one child per symbol of a completed rule of it |
| Forest.Walk | avocado/utils/external/spark.py:640-654 | the right-to-left loop over the rhs fills one value per position |
| Automata.MakeState0 | avocado/utils/external/spark.py:255-259 | state 0 holds each rule of `START` with the dot at 0, in order; `KeyError` without rules |
| Automata.Initial | avocado/utils/external/spark.py:323 | the automaton `{0: makeState0()}` with no edges or cores is sound |
| Automata.MakeState | avocado/utils/external/spark.py:360-438 | returns the state holding the shifted kernel under its memo key; a memoised kernel changes nothing; a new one gets the next id, with its non-kernel companion `k + 1` and the edge to it when that is new |
| Automata.Memoised | avocado/utils/external/spark.py:374-376 | a memoised kernel returns its state and leaves the automaton alone |
| Automata.NewState | avocado/utils/external/spark.py:381-438 | a new kernel is committed as state `k = len(states)`, sound and extending the old automaton |
| Automata.Passes | avocado/utils/external/spark.py:382-420 | both passes yield their state's completed rules, terminals and edges, and the kernel's closure |
| Automata.KernelBranch | avocado/utils/external/spark.py:421-422 | without predictions only the kernel state is added |
| Automata.SharedBranch | avocado/utils/external/spark.py:429-433 | a memoised prediction set only adds the ε-edge to the existing state |
| Automata.CompanionBranch | avocado/utils/external/spark.py:435-438 | the new companion is stored as a state with its edges and memo key (the intended behaviour) |
| Automata.Commit | avocado/utils/external/spark.py:421-438 | the three endings of `makeState` each commit a sound extension with state `k` for the kernel |
| Automata.CompanionSlotsAsWritten | avocado/utils/external/spark.py:435-437 | as written, `self.states` gets the kernel state and then the integer `k + 1` |
| Automata.CompanionAsWritten | avocado/utils/external/spark.py:435-437 | as written, the companion state's items cannot be read back (`AttributeError`) although the edge to it exists |
| Automata.Goto | avocado/utils/external/spark.py:440-455 | `None` without an edge (and nothing changes); a built edge's target is returned unchanged; a placeholder edge is built and stored |
| Automata.StoreEdge | avocado/utils/external/spark.py:453-454 | storing the built target keeps the automaton sound |
| Automata.GotoT | avocado/utils/external/spark.py:457-458 | a one-element list: the result of `goto` on the type |
| Automata.GotoST | avocado/utils/external/spark.py:460-465 | one `goto` result when the token equals a terminal of the state, none otherwise; `KeyError` for an unbuilt state |
| Automata.GotoIfEqual | avocado/utils/external/spark.py:462-464 | one terminal of the loop: `goto` when the token equals it |
| Automata.TerminalEdge | avocado/utils/external/spark.py:399-402 | every terminal in `t` has an edge |
| Automata.TerminalsDistinct | avocado/utils/external/spark.py:400-402 | `t` holds no terminal twice |
| Earley.AddItem | avocado/utils/external/spark.py:468-477 | the item is appended only if absent; with a predecessor its link is appended to a list that is reset when the item is new; other links are kept |
| Earley.Enter | avocado/utils/external/spark.py:494-499 | the item and its ε-successor (with parent `i + 1`) are in the set, which stays duplicate-free with links for every item; every item it adds is justified by the scan or completion that led to it, or is the ε-successor of an item before it; the links are the old ones with exactly the given link appended under `((k, parent), at)`, to a list that starts empty when the item is new |
| Earley.TargetsByType | avocado/utils/external/spark.py:485-486 | with a type, the scan targets are `gotoT`'s |
| Earley.ScanItem | avocado/utils/external/spark.py:490-499 | the scan of one item: every target state is entered in the next set with its ε-successor; every old link list is kept as a prefix, and every link added is `((it, i), None)` under the key in set `i + 1` of an item the scan of `it` justifies |
| Earley.CompleteFrom | avocado/utils/external/spark.py:506-515 | one parent item: the state `goto(pstate, lhs)` is entered in the current set; the links gain exactly the given link under `((goto(pstate, lhs), pparent), i)` when that edge exists, and nothing otherwise |
| Earley.CompleteRule | avocado/utils/external/spark.py:504-515 | every item of the parent set advances over the completed rule's lhs; every link added is `((pitem, parent), (it, i, rule))` with `pitem` in the parent set, under the key of the item `goto(pstate, lhs)` leads to |
| Earley.CompleteItem | avocado/utils/external/spark.py:501-515 | nothing for an item that started here; otherwise every completed rule of its state is completed, and every link added is such a completion link for one of those rules |
| Earley.ProcessItem | avocado/utils/external/spark.py:490-515 | one turn over `cur`: the item is scanned and completed, and the sets stay well formed; every link added is its scan link in the next set or one of its completion links in the current set, and the keys of both sets still belong to their items |
| Earley.MakeSet | avocado/utils/external/spark.py:479-515 | every item of the (growing) current set is scanned into the next set and completed into the current one; and every item it adds has a cause (`Supported`): in the next set, the scan of an item of the current set; in the current set, the completion of an item before it; in either, the ε-successor of an item before it; it fails only with the `KeyError` of a stale item, or out of fuel once the current set holds more than `fuel` items; every old link list is kept as a prefix and every link added is either the scan link `((it, i), None)` of an item `it` of the current set, under the key of an item of the next set its scan justifies, or a completion link `((pitem, parent), (it, i, rule))` of such an item, with `pitem` in set `parent`, `rule` completed by `it`'s state and the key's item `goto(pstate, lhs)` |
| Earley.SupportedStep | avocado/utils/external/spark.py:490-515 | processing one item of the current set keeps every added item of both sets caused |
| Earley.StaleItems | avocado/utils/external/spark.py:313 | the items of the first set whose state had not been built |
| Earley.Start | avocado/utils/external/spark.py:313 | the loop starts from `[(1, 0), (2, 0)]` with no links |
| Earley.ScanTokens | avocado/utils/external/spark.py:326-331 | the `for` loop: each set closed over its token until a set comes out empty |
| Earley.Advance | avocado/utils/external/spark.py:327-331 | one token: stop at an empty set, otherwise close it |
| Earley.Finish | avocado/utils/external/spark.py:332-334 | the `else` branch closes the last set with no token |
| Earley.CloseSet | avocado/utils/external/spark.py:331 | `makeSet` on the last but one set leaves the earlier ones untouched, and every item of every set still has a cause, as has every link |
| Earley.CloseLinks | avocado/utils/external/spark.py:331 | after `makeSet` every key still names an item of its set, the old links keep their causes and the new ones are that set's scan and completion links |
| Earley.LinksCausedMono | avocado/utils/external/spark.py:327-331 | a link's cause survives a grown automaton, a grown last set and `sets.append([])` |
| Earley.LinksOwned | avocado/utils/external/spark.py:472-475 | with caused links, every key of set `i` belongs to an item of set `i`, so that `add` resets a list only for an item that has none |
| Earley.CloseCaused | avocado/utils/external/spark.py:331 | after `makeSet` the items of the sets before keep their causes and the new ones have the causes `Supported` gives |
| Earley.OpenCaused | avocado/utils/external/spark.py:327 | `sets.append([])` keeps every item caused |
| Earley.ItemCausedMono | avocado/utils/external/spark.py:479-515 | an item's cause survives a grown automaton and its own set grown at the end, the sets before it unchanged |
| Earley.Recognise | avocado/utils/external/spark.py:313-334 | the sets after the loop: the first holds `(1, 0)` and `(2, 0)`; where and why the loop stopped (`last`, `broke`); every set closed; every item of every set has a cause, so the sets hold only what the Earley steps derive; and every link is one `makeSet` recorded for the scan or a completion of an item, under the key of an item of its set |
| Driver.StartProduced | avocado/utils/external/spark.py:255-257 | `START` has rules after the rewrite exactly when one of its user rules has a non-empty rhs |
| Driver.RebuildTables | avocado/utils/external/spark.py:316-324 | the derived tables are those of the rules; `KeyError` exactly when `START` has no rule with a non-empty rhs, otherwise states 0 and 1 are built |
| Driver.Accept | avocado/utils/external/spark.py:326-343 | with `run`: the sets are those the loop built from the given automaton (closed, with caused items and links, stopped where `last` and `broke` say), `final` is what `finalState` returned on the automaton the loop left, and the answer is the tree of `START` from the final item exactly when that item is in the last but one set, otherwise the syntax error near `tokens[last - 1]`; without `run`, only an exception that can arise where it arises (fuel, `KeyError` for an unbuilt first-set state or a missing `START`, `IndexError` for a start rule without a second symbol) |
| Driver.BrokeRejects | avocado/utils/external/spark.py:326-341 | when the loop breaks, the final item is never found and the error names `tokens[last - 1]`, the token whose scan left the next set empty after a non-empty one |
| Driver.FinalState | avocado/utils/external/spark.py:261-268 | state 1 for two start rules and no tokens, otherwise `goto(1, rules[START][0][1][1])`, with `KeyError`/`IndexError` where the lookups fail |
| Trees.FlippedReversed | avocado/utils/external/spark.py:825-836 | what `match_r` puts in front of the input is the tree's prefix form reversed |
| Trees.PreorderStops | avocado/utils/external/spark.py:768-769 | once a `prune` escapes from a child, no later child is visited |
| Trees.PreorderVisitsAll | avocado/utils/external/spark.py:754-774 | without `prune`, a handler is called on every node, each before its children |
| Trees.PostorderVisitsAll | avocado/utils/external/spark.py:776-788 | without `prune`, a handler is called on every node, each after its children |
| Trees.OrdersAgree | avocado/utils/external/spark.py:754-788 | both orders visit the same nodes as often |
| Trees.GenericASTTraversal.constructor | avocado/utils/external/spark.py:743-744 | a visitor over `ast` with no calls made |
| Trees.GenericASTTraversal.Preorder | avocado/utils/external/spark.py:754-774 | the trace grows by the calls of the pre-order run, a pruned node's children skipped; the `prune` of an exit hook escapes |
| Trees.GenericASTTraversal.Postorder | avocado/utils/external/spark.py:776-788 | the trace grows by the calls of the post-order run; any `prune` escapes |
| Parser.NameSuffix | avocado/utils/external/spark.py:205 | `name[2:]`, or empty for a shorter name |
| Parser.Stored | avocado/utils/external/spark.py:807-818 | `preprocess` keeps the lhs and the multiset of symbols |
| Parser.StoredOrder | avocado/utils/external/spark.py:814-818 | the matcher's `preprocess` stores the rhs back to front, position by position; every other rule is stored as it is |
| Parser.StoreAll | avocado/utils/external/spark.py:192-198 | one stored rule per parsed rule |
| Parser.BindSpec | avocado/utils/external/spark.py:204-205 | every added rule is bound to its action and its name; all other entries are kept |
| Parser.BuilderBinds | avocado/utils/external/spark.py:698-704 | for the AST builder, `addRule` binds every added rule to `buildASTNode` for its own lhs and keeps the other actions |
| Parser.RulesOfMembers | avocado/utils/external/spark.py:200-203 | the rules appended to `rules[lhs]` are exactly the added rules of `lhs` |
| Parser.AddAllAppends | avocado/utils/external/spark.py:200-203 | each lhs gets its added rules appended, in order, after its old ones |
| Parser.StartRuleKept | avocado/utils/external/spark.py:200-203 | adding rules keeps a rule of `START` with a non-empty rhs |
| Parser.AddRuleTo | avocado/utils/external/spark.py:182-206 | the tables after `addRule` are the declared rules appended, with their actions and names |
| Parser.CollectRulesTo | avocado/utils/external/spark.py:208-213 | the rules of every `p_` method in `_namelist` order |
| Parser.AugmentTo | avocado/utils/external/spark.py:215-217 | the start rule is added with the lambda, under the name `ambda>` (`"<lambda>"[2:]`) |
| Parser.AugmentHasStart | avocado/utils/external/spark.py:216-217 | the first rule `augment` adds is a rule of `START` |
| Parser.AugmentRule | avocado/utils/external/spark.py:216 | for a one-word start symbol the added rule is `START ::= \|- start` |
| Parser.RebuildAll | avocado/utils/external/spark.py:316-324 | the rebuild block: the tables become consistent with the rules, or `KeyError` leaves no states |
| Parser.GenericParser.constructor | avocado/utils/external/spark.py:112-118 | `collectRules` then `augment`, with `ruleschanged` set and no automaton yet |
| Parser.GenericParser.AddRule | avocado/utils/external/spark.py:182-206 | the tables become those `addRule` computes, and `ruleschanged` is set |
| Parser.GenericParser.Rebuild | avocado/utils/external/spark.py:316-324 | `KeyError` exactly without a usable start rule; otherwise states 0 and 1 are built; `ruleschanged` cleared |
| Parser.GenericParser.Parse | avocado/utils/external/spark.py:312-343 | `Parsed`: without a rebuild the loop starts from the old automaton, which only grows; after one, from states 0 and 1 of the new tables; `KeyError` (or, on unset states, what `gotoST`/`gotoT` raise) without a usable start rule; otherwise the sets, final state and answer `Driver.Accept` states, or one of the exceptions it allows |
| Parser.GenericParser.ParseBuilt | avocado/utils/external/spark.py:326-343 | on current tables: the links cleared, the automaton only grows, and the answer `Driver.Accept` states from the automaton as it was |
| Parser.GenericParser.MatchR | avocado/utils/external/spark.py:825-836 | the input becomes the node's flipped serialisation in front of the old input |
| Parser.GenericParser.Match | avocado/utils/external/spark.py:838-844 | the input is the flipped serialisation of the tree, and everything `Parsed` states of `parse` holds of that input, with the outcome its result |

## Left out

- `__getstate__`/`__setstate__` (spark.py:129-177): pickling is not modelled.
- `makeSet_fast` (spark.py:517-593): not modelled; `makeSet` is.
- `GenericScanner.__init__` (spark.py:40-46): compiling the pattern is left to the oracle `matches` that `Tokenize` takes. `index2func` is implicit: a group named `g` calls `t_g`.
- Regular-expression semantics: `matches(pattern, s, pos)` is an oracle. Patterns with capturing groups of their own, duplicate group names and compile errors are not modelled.
- `error` and `t_default` print and raise `SystemExit`. They become the error values `SyntaxError(token)` and `LexicalError(pos)`, and the call `t_default(text)` is recorded as a handler call that ends nothing.
- User actions and visitor handlers are opaque:
  - a `p_` action becomes the term `Call(name, args)`;
  - `foundMatch`'s call of the user method is not recorded;
  - `n_` handlers are a set of names, and their `prune` decisions come from a parameter.
- Reflection (`getattr`, `hasattr`, `__class__.__bases__`, `__dict__`) is replaced by explicit tables of class definitions and members.
- Subclassing: `GenericASTBuilder` and `GenericASTMatcher` are the `flavour` of one `Parser.GenericParser` class, since their only overrides are `preprocess` and `resolve`.
- `preorder`, `postorder` and `match` take the node explicitly. Their `node=None` default (`self.ast`) is not modelled.
- Earley.MakeSet, Forest.BuildTree and Forest.DeriveEpsilon carry a `fuel` bound and answer `OutOfFuel` when it runs out. Termination of `makeSet` over its growing `cur` would need a bound on the number of states. `deriveEpsilon` on a cyclic nullable grammar recurses until Python's recursion limit.
- Scanner.Tokenize returns `Stuck(pos)` where the source loops forever on an empty match.
- Forest.AmbiguityOrdering claims the shortest or longest rhs only when the candidate rules have distinct names. With repeated names `name2index` keeps the last index, which the source itself flags ("FIX ME"). Forest.AmbiguityChoice states what is chosen in that case.
- Forest.BuildTree and Forest.DeriveEpsilon state the shape of the value (an action of a rule of `nt` applied to one argument per rhs symbol), not which action values come out. The links are tied to the sets (every link is one `makeSet` recorded, which the `run` of Driver.Accept carries), but `buildTree` is not proved to follow them to a tree that spans exactly the parsed tokens. Forest.BuilderTree states the node the AST builder produces.
- The syntax error of `parse` names `tokens[i - 1]` as written, which in Python is the last token when the loop variable is 0.
- Automata.MakeState, Automata.Commit, Earley.Recognise, Driver.Accept and Parser.GenericParser.Parse run on the corrected companion branch (Automata.CompanionBranch). As written (spark.py:435-437) the companion slot holds an integer, so the first `makeSet` that meets an item of that state raises `AttributeError`, through `gotoST` (spark.py:463) or through `makeState` (spark.py:367) reading its items. Automata.CompanionAsWritten shows this at the level of the automaton; the end-to-end crash of `parse` is not modelled.
- Driver.Accept, Parser.GenericParser.Parse, Parser.GenericParser.ParseBuilt and Parser.GenericParser.Match may answer `OutOfFuel` without a `run` whenever the fuel bound of `makeSet` runs out (Earley.MakeSet states when that happens: a set of more than `fuel` items); they do not carry that bound up to the sets nor promise that enough fuel exists.
- The actions of `rule2func` (`buildASTNode`, `foundMatch`, user `p_` methods) are modelled by their results only: Forest.BuilderTree and Parser.BuilderBinds state what the builder's action yields, and `foundMatch`'s call of the user method is not recorded.
- Terminal tokens are values: `Word(text)`, or a tree node whose type is its text. A token equals a terminal when their texts agree, which is `__cmp__` on AST nodes.

## Findings

| source | as written | input that shows it | evidently intended | confidence | as-written member | corrected member |
|---|---|---|---|---|---|---|
| avocado/utils/external/spark.py:435-437 | `nk = self.cores[tcore] = self.edges[(k, None)] = nk.stateno` rebinds `nk` to the integer, so `self.states[nk] = nk` stores the number `k + 1` instead of the companion `_State` | grammar `START ::= \|- expr`, `expr ::= a`, tokens `[a]`: `makeState(0, \|-)` stores state 2 as the integer 2, and `makeSet` on item `(2, 0)` reads `self.states[2].t` (or `.items`) and raises `AttributeError` | keep the state object: store the `_State` under `nk.stateno` | not executed | Automata.CompanionAsWritten | Automata.CompanionBranch |
