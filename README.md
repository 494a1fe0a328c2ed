# A Dafny model of the egg-netlist-synthesizer expression layer

The synthesizer turns boolean formulas into netlists of library gates. Its
visible core has three parts, and each is modelled in its own module:

- **The C++ expression builders** (`csrc/ffi.cpp`, module `CxxBuilders`). Seven
  pure constructors each return one node `{kind, name, children}`. The model
  keeps the code's behaviour for `build_let`: it tags the node `Module`, not
  `Let`. No builder produces the `Let` tag, and a let-binding named `"module"`
  is the same value as a one-statement module (`LetIsIndistinguishableFromModule`).
  Nothing in the source says whether this is intended. The model follows the
  code and proves what follows from it.
- **The Rust bridge and queries** (`src/lib.rs`, modules `BooleanLanguage`,
  `Queries`, `Bridge`, `Library`).
  - An egg `RecExpr` is a sequence of `BooleanLanguage` nodes. Every child id
    of a node is below the node's own index, and the root is the last node.
  - `Subterm(e, i)` unfolds node `i` into a tree. It stands for
    `build_recexpr`.
  - The `expr_get_*` functions are total. Each `panic!` and each `unwrap` of a
    missing value becomes an explicit `Err`.
  - The e-graph is a class that records the enodes handed to `add`, in order.
  - `Metric::from_str` and the map-building loop of `load_library` are
    modelled as they are written.
  - The C++ builders and the Rust bridge builders are separate layers with
    different operator sets (`build_bit` on one side, `build_num` on the
    other). They are modelled independently.
- **Rewrite rules and the gate cost** (`src/main.rs`, modules `Rewrites`,
  `GateCost`).
  - Terms get a boolean meaning. A literal is true when it is not 0, so 0 and
    1 are false and true. `and2`, `or2`, `nand2` and `xor2` are AND, OR, NAND
    and XOR.
  - Every one of the 25 rules is proved sound for every binding of its
    variables.
  - `GateCostFunction::cost` is a recursive cost over terms. Every gate rule
    strictly lowers it, reordering axioms keep it, and simplifying axioms
    never raise it.

## Model

| member | source | states |
|---|---|---|
| CxxBuilders.BuildModule | csrc/ffi.cpp:4-6 | kind `Module`, name "module", children exactly the statements in order (also for none); the tree obeys the shape table, and is free of `Let` tags, exactly when every statement does |
| CxxBuilders.BuildLet | csrc/ffi.cpp:8-10 | kind `Module` (not `Let`), name is the bound name, the bound expression as its only child; shape and let-freedom carried over from the child |
| CxxBuilders.BuildAnd | csrc/ffi.cpp:12-14 | kind `And`, name "&", children `[lhs, rhs]` never swapped; shape and let-freedom hold exactly when they hold for both operands |
| CxxBuilders.BuildOr | csrc/ffi.cpp:16-18 | kind `Or`, name "\|", children `[lhs, rhs]` never swapped; shape and let-freedom as for `BuildAnd` |
| CxxBuilders.BuildNot | csrc/ffi.cpp:20-22 | kind `Not`, name "!", the operand as only child; shape and let-freedom carried over |
| CxxBuilders.BuildBit | csrc/ffi.cpp:24-27 | a one-node leaf of kind `Bit` whose name is the argument unchanged |
| CxxBuilders.BuildSymbol | csrc/ffi.cpp:29-32 | a one-node leaf of kind `Symbol` whose name is the argument unchanged |
| CxxBuilders.LetIsIndistinguishableFromModule | csrc/ffi.cpp:8-10 | a let-binding has kind `Module`, and it equals a one-statement module exactly when its name is "module" |
| CxxBuilders.BuildersInjective | csrc/ffi.cpp:4-32 | each of the seven builders is injective: equal nodes come from equal arguments, for modules from equal statement lists of any length |
| CxxBuilders.BuildersDistinct | csrc/ffi.cpp:4-32 | for every pair of different builders, no two calls give the same node; the single exception is a let named "module" with one statement's module; a bit and a symbol of the same name differ only in kind |
| CxxBuilders.BuilderSizes | csrc/ffi.cpp:8-22 | the node count of `&`, `\|`, `!` and let nodes is one plus the counts of their operands; an empty module has one node |
| CxxBuilders.ModuleSizeAppend | csrc/ffi.cpp:4-6 | one more statement adds exactly that statement's node count to a module |
| CxxBuilders.DoubleNotIsNotSimplified | csrc/ffi.cpp:20-22 | a double negation is two levels deeper and two nodes larger than its operand, and never equals it |
| BooleanLanguage.Children | src/lib.rs:39-52 | leaves have no children; a module's children are its statements and a gate's its pins |
| BooleanLanguage.ExtendRecExpr | src/lib.rs:265 | adding a node whose children are already present keeps every child id below its parent's |
| BooleanLanguage.Subterm | src/lib.rs:320-321 | `build_recexpr` from node `i`: the tree's root is the node's operator, with its symbol, literal or cell name |
| BooleanLanguage.SubtermChildren | src/lib.rs:348-349 | the unfolded tree keeps the node's operator and payload, has as many children as the node, and its k-th child is the tree unfolded at the k-th child id of the node |
| BooleanLanguage.SubtermPrefix | src/lib.rs:259-312 | nodes added later never change what an earlier id denotes |
| Queries.PinsOf | src/lib.rs:369-380 | the kept pins are exactly the pins of the requested kind, no more than the pins scanned, and all of them when every pin has the kind |
| Queries.PinsOfOne | src/lib.rs:371-379 | a single pin is kept exactly when it has the requested kind |
| Queries.PinsOfAppend | src/lib.rs:369-380 | scanning a concatenation keeps the pins of the first part, then those of the second: order and repetitions are those of the gate's pin list |
| Queries.ExprGetModuleBody | src/lib.rs:314-328 | fails on an empty expression or a root that is not a module; otherwise one tree per statement id, in order, each the subterm rooted at that id |
| Queries.ExprGetLetSymbol | src/lib.rs:330-342 | succeeds exactly when the root is a let whose first child is a symbol, and returns that symbol's name; the other cases give their panic |
| Queries.ExprGetLetExpr | src/lib.rs:344-354 | succeeds exactly when the root is a let, returning the subterm at its second child |
| Queries.ExprGetGateName | src/lib.rs:356-362 | succeeds exactly when the root is a gate, returning its cell name |
| Queries.CollectPinNames | src/lib.rs:368-381 | succeeds exactly when every pin of the kind is named by a symbol, and returns those names in pin order; otherwise the kind's panic |
| Queries.ExprGetGateInputNames | src/lib.rs:364-386 | fails unless the root is a gate; then returns the names of the input pins in order, skipping other pins, and fails when an input's first child is not a symbol |
| Queries.ExprGetGateInputExprs | src/lib.rs:388-408 | succeeds exactly when the root is a gate; the k-th result is the subterm wired to the k-th input pin, so it pairs with the k-th input name |
| Queries.ExprGetGateOutputName | src/lib.rs:410-432 | the symbol naming the first output pin; fails if any output pin is not named by a symbol, and with `NoOutputPin` when there is no output pin |
| Queries.ExprIsSymbol | src/lib.rs:434-440 | fails only on an empty expression; otherwise true exactly when the root is a symbol |
| Queries.ExprGetSymbol | src/lib.rs:442-448 | succeeds exactly when the root is a symbol, returning its name |
| Queries.QueriesSeeOnlyTheTree | src/lib.rs:330-362 | two expressions that denote the same tree get the same answer from the let, gate-name and symbol queries, whatever vector holds the nodes |
| Queries.IsSymbolAgreesWithGetSymbol | src/lib.rs:434-448 | `expr_is_symbol` is true exactly when `expr_get_symbol` succeeds, false exactly when it panics on a non-symbol root |
| Bridge.EGraph.constructor | src/lib.rs:234-237 | a new e-graph holds no enodes |
| Bridge.EGraph.Add | src/lib.rs:265 | the enode is recorded after all earlier ones and its id names it |
| Bridge.EGraph.BuildSymbol | src/lib.rs:308-312 | adds exactly `Symbol(name)` |
| Bridge.EGraph.BuildNum | src/lib.rs:302-306 | adds exactly `Num(num)` |
| Bridge.EGraph.BuildLet | src/lib.rs:269-274 | adds `Symbol(name)`, then `Let` of that symbol's id and the expression, and returns the let's id |
| Bridge.EGraph.BuildAnd | src/lib.rs:276-284 | adds `And(lhs, rhs)` with the operands in order |
| Bridge.EGraph.BuildOr | src/lib.rs:286-294 | adds `Or(lhs, rhs)` with the operands in order |
| Bridge.EGraph.BuildNot | src/lib.rs:296-300 | adds `Not(input)` |
| Bridge.EGraph.BuildModule | src/lib.rs:259-267 | adds `Module` of the statement ids in their order and returns an expression rooted at it, in which each statement denotes what it did before |
| Bridge.StmtList.Append | src/lib.rs:450-452 | one more id at the end; earlier ids unchanged |
| Bridge.BuildLetRoundTrip | src/lib.rs:269-274 | the let queries, asked of the node log `build_let` extended, return its name and the bound expression; the source returns only an id, and `QueriesSeeOnlyTheTree` carries the answer to any expression denoting the same tree |
| Bridge.ModuleRoundTrip | src/lib.rs:259-267 | querying the body of what `build_module` returned gives each statement's expression, in order |
| Bridge.BuildSymbolRoundTrip | src/lib.rs:308-312 | the symbol queries on what `build_symbol` added return true and the name |
| Library.MetricFromStr | src/lib.rs:75-82 | succeeds exactly on "Area", "Power" and "Timing" (case-sensitive), with the metric of that spelling |
| Library.MetricRoundTrip | src/lib.rs:75-82 | parsing the spelling of any metric gives that metric back |
| Library.LoadLibrary | src/lib.rs:30-34 | the loop builds the map of inserting each cell under its name, in list order |
| Library.LibraryKeys | src/lib.rs:30-34 | the library's keys are exactly the cells' names |
| Library.LibraryEntriesNamed | src/lib.rs:30-34 | every entry is one of the cells, stored under its own name |
| Library.LibraryLaterWins | src/lib.rs:30-34 | every cell's name is a key, and a cell with no later namesake is its name's entry: on duplicates the later cell wins |
| Rewrites.RuleTable | src/main.rs:15-43 | the rule set is 21 axioms then 4 gate definitions, 25 rules, under the source's names and in its order |
| Rewrites.RulesBindTheirVariables | src/main.rs:15-43 | every rule's right-hand side uses only variables its left-hand side binds, so no application meets an unbound variable |
| Rewrites.InstantiateUsesOnlyVars | src/main.rs:15-43 | instantiating a rule side reads the match only at the side's own variables |
| Rewrites.EvalInstantiate | src/main.rs:15-43 | evaluating a rule side instantiated with terms equals evaluating the pattern with each variable given its term's value |
| Rewrites.AxiomGroups | src/main.rs:17-37 | the reordering, simplifying and expanding groups together are exactly the 21 axioms |
| Rewrites.ReorderingsHold | src/main.rs:17-20 | associativity and commutativity of `&` and `\|` are boolean identities |
| Rewrites.SimplificationsHold | src/main.rs:23-35 | identity, annihilation, idempotence, absorption, complement, `!0`, `!1` and double negation are boolean identities |
| Rewrites.ExpansionsHold | src/main.rs:21-22 | distributivity and De Morgan's laws are boolean identities |
| Rewrites.EvalGatePattern | src/main.rs:39-42 | a two-input gate pattern evaluates its gate on the two variables |
| Rewrites.GateRulesHold | src/main.rs:39-42 | `and2`/`or2` equal `&`/`\|`, `(\| (! x) (! y))` equals NAND and the two-term sum of products equals XOR |
| Rewrites.RuleSound | src/main.rs:15-43 | every rule is sound: both sides agree for every binding of the variables and every environment |
| GateCost.Cost | src/main.rs:53-66 | a term costs at least its root operator, and never less than 0 |
| GateCost.Fold | src/main.rs:65 | adding non-negative child costs never drops below the operator cost |
| GateCost.LeavesAreFree | src/main.rs:57-64 | a term costs 0 exactly when it is a literal or a symbol |
| GateCost.CostInstantiate | src/main.rs:53-66 | an instance of a rule side costs the pattern's cost with each variable costing its term |
| GateCost.ReorderingsKeepCost | src/main.rs:17-20 | associate and commute rules keep the cost exactly |
| GateCost.SimplificationsNeverRaiseCost | src/main.rs:23-35 | the simplifying axioms never raise the cost |
| GateCost.ExpansionsRaiseCost | src/main.rs:21-22 | distribute rules raise the cost by 2 plus the shared operand, De Morgan by 2 |
| GateCost.GatePatternCost | src/main.rs:61 | a two-input gate pattern costs 1 plus its operands |
| GateCost.GateRulesLowerCost | src/main.rs:39-42 | every gate rule strictly lowers the cost: `and2`/`or2` by 1, `nand2` by 5, `xor2` by 9 plus its operands |
| GateCost.RuleCost | src/main.rs:45-66 | for every binding: gate rules give a cheaper term, reorderings an equally expensive one, simplifications a no more expensive one |

## Left out

- `Synthesizer::new` and `Synthesizer::run` (src/lib.rs:142-229) are left out. They drive egg's runner, parse the library patterns, solve with an MILP extractor, print a report and write a picture. These are foreign libraries and I/O. This includes the let-inlining multi-rewrites at src/lib.rs:150-158.
- `LpCostFunction::node_cost` and `GateCostFunction::gate_cost` (src/lib.rs:90-135) are left out. They compute floating-point costs over egg e-classes.
- `load_library` (src/lib.rs:25-28): opening the file and JSON decoding are I/O and are left out. `LoadLibrary` takes the decoded cell list.
- Library.Cell: the `f64` area, power and timing are kept as reals and only stored; no floating-point behaviour is modelled.
- Bridge.EGraph.Add: egg's hash-consing and e-class merging are not modelled. Every `add` gets a fresh id, equal to the enode's position in the log. The contracts state which enodes are added, in which order and with which child ids; they do not state which ids egg would reuse.
- Bridge.EGraph.BuildModule: it returns the whole log of enodes, not egg's `id_to_expr` result. The returned expression has the same root and denotes the same tree. It may also hold nodes the root does not reach, which no query visits.
- egg's `RecExpr::pretty`, `print_expr`, `egraph_new`'s explanation setting, `synthesizer_new`, `synthesizer_run` and the `#[cxx::bridge]` declarations (src/lib.rs:234-255, 454-532) are thin wrappers or printing and are left out.
- BooleanLanguage.Subterm: only well-formed expressions are modelled, where every child id names an earlier node (egg's own `RecExpr` invariant). Vectors outside that invariant are not represented. In the source, a child id past the end of the vector panics and a cycle of ids never finishes; a forward id without a cycle works there, but has no counterpart here. The empty expression is represented; every query on it fails.
- egg interns symbols. `Symbol::from` followed by `to_string` is taken to give back the same string.
- GateCost.Cost: it is computed on unbounded integers. The source's `i32` sum could wrap only for terms whose cost exceeds 2^31 - 1, and that is not modelled.
- Rewrites.Eval: a literal other than 0 or 1 is read as true, because the rules only use 0 and 1. A gate other than the two-input `and2`, `or2`, `nand2` and `xor2` gets its meaning from the environment.
- The rules are proved sound for each instantiation of their variables by terms. egg applies them to e-classes; that engine (src/main.rs:69-100), extraction and printing are left out.
- include/ffi.h only declares the C++ builders, and build.rs is a build script; neither is modelled.
