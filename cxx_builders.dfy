/** The C++ expression builders of csrc/ffi.cpp.

    Each builder returns one node `{kind, name, children}` by aggregate
    initialisation; nothing is validated or shared.  `build_let` tags its node
    `Module` (there is no builder that produces the `Let` tag), and the model
    keeps that behaviour: see `LetIsIndistinguishableFromModule`. */
module CxxBuilders {

  /** `BooleanExpressionType`: the seven node tags. */
  datatype Kind = Module | Let | And | Or | Not | Bit | Symbol

  /** `BooleanExpression`: a tag, a label and the owned, ordered children. */
  datatype Expr = Expr(kind: Kind, name: string, children: seq<Expr>)

  /** The shape table every node built by the builders obeys.  The `Module`
      row admits any label with exactly one child because that is what
      `build_let` produces; the `Let` row is never reached by a builder. */
  predicate NodeShaped(e: Expr)
  {
    match e.kind
    case Module => e.name == "module" || |e.children| == 1
    case Let => |e.children| == 1
    case And => e.name == "&" && |e.children| == 2
    case Or => e.name == "|" && |e.children| == 2
    case Not => e.name == "!" && |e.children| == 1
    case Bit => e.children == []
    case Symbol => e.children == []
  }

  /** Every node of the tree obeys the shape table. */
  predicate Shaped(e: Expr)
  {
    NodeShaped(e) && forall c | c in e.children :: Shaped(c)
  }

  /** No node of the tree carries the `Let` tag. */
  predicate LetFree(e: Expr)
  {
    e.kind != Let && forall c | c in e.children :: LetFree(c)
  }

  /** Number of nodes of the tree. */
  function Size(e: Expr): nat
  {
    1 + SizeAll(e.children)
  }

  function SizeAll(es: seq<Expr>): nat
  {
    if es == [] then 0 else SizeAll(es[..|es| - 1]) + Size(es[|es| - 1])
  }

  /** Length of the longest root-to-leaf path, counted in nodes. */
  function Depth(e: Expr): nat
  {
    1 + DepthAll(e.children)
  }

  function DepthAll(es: seq<Expr>): nat
  {
    if es == [] then 0
    else
      var d := Depth(es[|es| - 1]);
      var rest := DepthAll(es[..|es| - 1]);
      if d < rest then rest else d
  }

  /** `build_module`: a `Module` node named "module" whose children are the
      statements, in order (possibly none). */
  function BuildModule(stmts: seq<Expr>): (r: Expr)
    ensures r.kind == Module && r.name == "module" && r.children == stmts
    ensures Shaped(r) <==> forall s | s in stmts :: Shaped(s)
    ensures LetFree(r) <==> forall s | s in stmts :: LetFree(s)
  {
    Expr(Module, "module", stmts)
  }

  /** `build_let`: tagged `Module` (not `Let`), whose name is the bound name,
      with the bound expression as its only child. */
  function BuildLet(binder: string, expr: Expr): (r: Expr)
    ensures r.kind == Module && r.name == binder && r.children == [expr]
    ensures Shaped(r) <==> Shaped(expr)
    ensures LetFree(r) <==> LetFree(expr)
  {
    Expr(Module, binder, [expr])
  }

  /** `build_and`: operands kept in the order given. */
  function BuildAnd(lhs: Expr, rhs: Expr): (r: Expr)
    ensures r.kind == And && r.name == "&" && r.children == [lhs, rhs]
    ensures Shaped(r) <==> Shaped(lhs) && Shaped(rhs)
    ensures LetFree(r) <==> LetFree(lhs) && LetFree(rhs)
  {
    Expr(And, "&", [lhs, rhs])
  }

  /** `build_or`: operands kept in the order given. */
  function BuildOr(lhs: Expr, rhs: Expr): (r: Expr)
    ensures r.kind == Or && r.name == "|" && r.children == [lhs, rhs]
    ensures Shaped(r) <==> Shaped(lhs) && Shaped(rhs)
    ensures LetFree(r) <==> LetFree(lhs) && LetFree(rhs)
  {
    Expr(Or, "|", [lhs, rhs])
  }

  /** `build_not`: one child, no simplification. */
  function BuildNot(expr: Expr): (r: Expr)
    ensures r.kind == Not && r.name == "!" && r.children == [expr]
    ensures Shaped(r) <==> Shaped(expr)
    ensures LetFree(r) <==> LetFree(expr)
  {
    Expr(Not, "!", [expr])
  }

  /** `build_bit`: a leaf carrying the wire name unchanged. */
  function BuildBit(name: string): (r: Expr)
    ensures r.kind == Bit && r.name == name && r.children == []
    ensures Shaped(r) && LetFree(r) && Size(r) == 1
  {
    Expr(Bit, name, [])
  }

  /** `build_symbol`: a leaf carrying the symbol name unchanged. */
  function BuildSymbol(name: string): (r: Expr)
    ensures r.kind == Symbol && r.name == name && r.children == []
    ensures Shaped(r) && LetFree(r) && Size(r) == 1
  {
    Expr(Symbol, name, [])
  }

  /** The `Let` tag is lost: a let-binding is a one-child `Module`, and one
      whose name is "module" is the very same value as a one-statement module. */
  lemma LetIsIndistinguishableFromModule(name: string, expr: Expr)
    ensures BuildLet(name, expr).kind == BuildModule([expr]).kind == Module
    ensures BuildLet(name, expr) == BuildModule([expr]) <==> name == "module"
    ensures BuildLet("module", expr) == BuildModule([expr])
  {
  }

  /** Each builder is injective: equal results come from equal arguments. */
  lemma BuildersInjective(a: Expr, b: Expr, c: Expr, d: Expr, s: seq<Expr>, t: seq<Expr>, n: string, m: string)
    ensures BuildModule(s) == BuildModule(t) <==> s == t
    ensures BuildLet(n, a) == BuildLet(m, c) <==> n == m && a == c
    ensures BuildAnd(a, b) == BuildAnd(c, d) <==> a == c && b == d
    ensures BuildOr(a, b) == BuildOr(c, d) <==> a == c && b == d
    ensures BuildNot(a) == BuildNot(c) <==> a == c
    ensures BuildBit(n) == BuildBit(m) <==> n == m
    ensures BuildSymbol(n) == BuildSymbol(m) <==> n == m
  {
  }

  /** Two different builders never produce the same node, with the single
      exception of the let/module collision; a bit and a symbol of the same
      name differ only in their kind. */
  lemma BuildersDistinct(a: Expr, b: Expr, c: Expr, d: Expr, s: seq<Expr>, n: string, m: string)
    ensures BuildLet(n, a) == BuildModule(s) <==> n == "module" && s == [a]
    ensures BuildModule(s) != BuildAnd(a, b) && BuildModule(s) != BuildOr(a, b) && BuildModule(s) != BuildNot(a)
    ensures BuildModule(s) != BuildBit(n) && BuildModule(s) != BuildSymbol(n)
    ensures BuildLet(n, a) != BuildAnd(c, d) && BuildLet(n, a) != BuildOr(c, d) && BuildLet(n, a) != BuildNot(c)
    ensures BuildLet(n, a) != BuildBit(m) && BuildLet(n, a) != BuildSymbol(m)
    ensures BuildAnd(a, b) != BuildOr(c, d) && BuildAnd(a, b) != BuildNot(c)
    ensures BuildAnd(a, b) != BuildBit(n) && BuildAnd(a, b) != BuildSymbol(n)
    ensures BuildOr(a, b) != BuildNot(c) && BuildOr(a, b) != BuildBit(n) && BuildOr(a, b) != BuildSymbol(n)
    ensures BuildNot(a) != BuildBit(n) && BuildNot(a) != BuildSymbol(n)
    ensures BuildBit(n) != BuildSymbol(m)
    ensures BuildBit(n).name == BuildSymbol(n).name && BuildBit(n).children == BuildSymbol(n).children
  {
  }

  lemma SingleChild(a: Expr)
    ensures SizeAll([a]) == Size(a) && DepthAll([a]) == Depth(a)
  {
    assert [a][..0] == [];
  }

  lemma SizeAllPair(a: Expr, b: Expr)
    ensures SizeAll([a, b]) == Size(a) + Size(b)
  {
    assert [a, b][..1] == [a];
    SingleChild(a);
  }

  /** Node count of each builder's result: one node plus its children's. */
  lemma {:induction false} BuilderSizes(a: Expr, b: Expr, n: string)
    ensures Size(BuildAnd(a, b)) == 1 + Size(a) + Size(b)
    ensures Size(BuildOr(a, b)) == 1 + Size(a) + Size(b)
    ensures Size(BuildNot(a)) == 1 + Size(a)
    ensures Size(BuildLet(n, a)) == 1 + Size(a)
    ensures Size(BuildModule([])) == 1
  {
    SizeAllPair(a, b);
    SingleChild(a);
  }

  /** A statement list's node count is additive under concatenation. */
  lemma {:induction false} SizeAllAppend(xs: seq<Expr>, ys: seq<Expr>)
    ensures SizeAll(xs + ys) == SizeAll(xs) + SizeAll(ys)
    decreases |ys|
  {
    if ys == [] {
      assert xs + ys == xs;
    } else {
      var ys' := ys[..|ys| - 1];
      assert (xs + ys)[..|xs + ys| - 1] == xs + ys';
      SizeAllAppend(xs, ys');
    }
  }

  /** Appending a statement to a module adds exactly that statement's nodes. */
  lemma ModuleSizeAppend(stmts: seq<Expr>, s: Expr)
    ensures Size(BuildModule(stmts + [s])) == Size(BuildModule(stmts)) + Size(s)
  {
    SizeAllAppend(stmts, [s]);
    assert [s][..0] == [];
  }

  /** `build_not` never cancels: a double negation is two levels deeper and
      two nodes larger than its operand, so it is never equal to it. */
  lemma {:induction false} DoubleNotIsNotSimplified(x: Expr)
    ensures Depth(BuildNot(BuildNot(x))) == Depth(x) + 2
    ensures Size(BuildNot(BuildNot(x))) == Size(x) + 2
    ensures BuildNot(BuildNot(x)) != x
  {
    SingleChild(x);
    SingleChild(BuildNot(x));
  }
}
