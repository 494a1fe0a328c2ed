/** The e-graph language of src/lib.rs (`BooleanLanguage`) and egg's flat
    `RecExpr` representation of one expression in it.

    `Lang<A>` is the language with its children of type `A`: a `Node` of a
    `RecExpr` has child ids, a `Tree` has child trees. */
module BooleanLanguage {
  import opened Base

  /** An index into a `RecExpr` (egg's `Id`). */
  type Id = nat

  /** The ten operators of `BooleanLanguage`, children abstracted as `A`. */
  datatype Lang<A> =
    | Module(stmts: seq<A>)          // "module"
    | Let(binder: A, bound: A)        // "let"
    | And(lhs: A, rhs: A)             // "&"
    | Or(lhs: A, rhs: A)              // "|"
    | Not(input: A)                   // "!"
    | Input(pinName: A, pinExpr: A)   // "input"
    | Output(pinName: A)              // "output"
    | Num(value: i32)
    | Symbol(sym: string)
    | Gate(cell: string, pins: seq<A>)

  type Node = Lang<Id>

  /** A fully unfolded expression. */
  datatype Tree = Tree(node: Lang<Tree>)

  /** The children of a node, in egg's order. */
  function Children<A>(n: Lang<A>): (cs: seq<A>)
    ensures n.Num? || n.Symbol? ==> cs == []
    ensures n.Module? ==> cs == n.stmts
    ensures n.Gate? ==> cs == n.pins
  {
    match n
    case Module(stmts) => stmts
    case Let(binder, bound) => [binder, bound]
    case And(lhs, rhs) => [lhs, rhs]
    case Or(lhs, rhs) => [lhs, rhs]
    case Not(input) => [input]
    case Input(pinName, pinExpr) => [pinName, pinExpr]
    case Output(pinName) => [pinName]
    case Num(_) => []
    case Symbol(_) => []
    case Gate(_, pins) => pins
  }

  /** Every child id of `n` is below `bound`. */
  predicate ChildrenBelow(n: Node, bound: nat)
  {
    match n
    case Module(stmts) => forall k | 0 <= k < |stmts| :: stmts[k] < bound
    case Let(binder, bound') => binder < bound && bound' < bound
    case And(lhs, rhs) => lhs < bound && rhs < bound
    case Or(lhs, rhs) => lhs < bound && rhs < bound
    case Not(input) => input < bound
    case Input(pinName, pinExpr) => pinName < bound && pinExpr < bound
    case Output(pinName) => pinName < bound
    case Num(_) => true
    case Symbol(_) => true
    case Gate(_, pins) => forall k | 0 <= k < |pins| :: pins[k] < bound
  }

  /** egg's `RecExpr` invariant: every child id names an earlier node. */
  predicate IsRecExpr(e: seq<Node>)
  {
    forall i | 0 <= i < |e| :: ChildrenBelow(e[i], i)
  }

  /** A flattened expression; its root is its last node. */
  type RecExpr = e: seq<Node> | IsRecExpr(e) witness []

  /** `n` and `m` are the same operator with the same payload (symbol,
      literal or cell name), whatever their children. */
  predicate SameOp<A, B>(n: Lang<A>, m: Lang<B>)
  {
    match n
    case Module(_) => m.Module?
    case Let(_, _) => m.Let?
    case And(_, _) => m.And?
    case Or(_, _) => m.Or?
    case Not(_) => m.Not?
    case Input(_, _) => m.Input?
    case Output(_) => m.Output?
    case Num(v) => m == Num(v)
    case Symbol(s) => m == Symbol(s)
    case Gate(cell, _) => m.Gate? && m.cell == cell
  }

  /** The expression rooted at node `i` of `e`, unfolded into a tree: the
      model of egg's `build_recexpr` started at `e[i]`. The root keeps the
      node's operator and payload, and has as many children as the node. */
  function Subterm(e: RecExpr, i: Id): (t: Tree)
    requires i < |e|
    ensures SameOp(e[i], t.node)
    decreases i
  {
    var n := e[i];
    assert ChildrenBelow(n, i);
    match n
    case Module(stmts) =>
      Tree(Module(seq(|stmts|, k requires 0 <= k < |stmts| => Subterm(e, stmts[k]))))
    case Let(binder, bound) => Tree(Let(Subterm(e, binder), Subterm(e, bound)))
    case And(lhs, rhs) => Tree(And(Subterm(e, lhs), Subterm(e, rhs)))
    case Or(lhs, rhs) => Tree(Or(Subterm(e, lhs), Subterm(e, rhs)))
    case Not(input) => Tree(Not(Subterm(e, input)))
    case Input(pinName, pinExpr) => Tree(Input(Subterm(e, pinName), Subterm(e, pinExpr)))
    case Output(pinName) => Tree(Output(Subterm(e, pinName)))
    case Num(v) => Tree(Num(v))
    case Symbol(s) => Tree(Symbol(s))
    case Gate(cell, pins) =>
      Tree(Gate(cell, seq(|pins|, k requires 0 <= k < |pins| => Subterm(e, pins[k]))))
  }

  /** Adding a node whose children are already present keeps the invariant:
      this is what makes `add`-built logs valid `RecExpr`s. */
  lemma ExtendRecExpr(e: RecExpr, n: Node)
    requires ChildrenBelow(n, |e|)
    ensures IsRecExpr(e + [n])
  {
    forall i | 0 <= i < |e + [n]|
      ensures ChildrenBelow((e + [n])[i], i)
    {
      if i < |e| {
        assert (e + [n])[i] == e[i];
      }
    }
  }

  /** Subterm unfolds node `i`: the tree's root is the node's operator with
      its payload, and its k-th child is the subterm rooted at the k-th child
      id of `e[i]`. */
  lemma SubtermChildren(e: RecExpr, i: Id)
    requires i < |e|
    ensures SameOp(e[i], Subterm(e, i).node)
    ensures |Children(Subterm(e, i).node)| == |Children(e[i])|
    ensures forall k | 0 <= k < |Children(e[i])| ::
              Children(e[i])[k] < i && Children(Subterm(e, i).node)[k] == Subterm(e, Children(e[i])[k])
  {
    assert ChildrenBelow(e[i], i);
  }

  /** The subterm at an id depends only on the nodes up to that id: extending
      a `RecExpr` (as every later `add` does) leaves old subterms unchanged. */
  lemma {:induction false} SubtermPrefix(e: RecExpr, e': RecExpr, i: Id)
    requires |e| <= |e'| && e'[..|e|] == e && i < |e|
    ensures Subterm(e', i) == Subterm(e, i)
    decreases i
  {
    assert e'[i] == e[i];
    assert ChildrenBelow(e[i], i);
    match e[i]
    case Module(stmts) =>
      forall k | 0 <= k < |stmts| ensures Subterm(e', stmts[k]) == Subterm(e, stmts[k]) {
        SubtermPrefix(e, e', stmts[k]);
      }
      assert Subterm(e', i).node.stmts == Subterm(e, i).node.stmts;
    case Let(binder, bound) =>
      SubtermPrefix(e, e', binder);
      SubtermPrefix(e, e', bound);
    case And(lhs, rhs) =>
      SubtermPrefix(e, e', lhs);
      SubtermPrefix(e, e', rhs);
    case Or(lhs, rhs) =>
      SubtermPrefix(e, e', lhs);
      SubtermPrefix(e, e', rhs);
    case Not(input) =>
      SubtermPrefix(e, e', input);
    case Input(pinName, pinExpr) =>
      SubtermPrefix(e, e', pinName);
      SubtermPrefix(e, e', pinExpr);
    case Output(pinName) =>
      SubtermPrefix(e, e', pinName);
    case Num(_) =>
    case Symbol(_) =>
    case Gate(cell, pins) =>
      forall k | 0 <= k < |pins| ensures Subterm(e', pins[k]) == Subterm(e, pins[k]) {
        SubtermPrefix(e, e', pins[k]);
      }
      assert Subterm(e', i).node.pins == Subterm(e, i).node.pins;
  }
}
