/** The bridge builders of src/lib.rs (`build_*` taking `&mut BooleanEGraph`)
    and `append_expr`.

    The e-graph is abstracted to the log of enodes handed to its `add`, in
    order; the id `add` returns is the enode's position in that log, so the
    log is itself a `RecExpr`.  Hash-consing and merging of equal enodes are
    egg internals and are not modelled. */
module Bridge {
  import opened Base
  import opened BooleanLanguage
  import opened Queries

  class EGraph {
    /** Every enode passed to `add`, in order; enode `k` has id `k`. */
    var nodes: RecExpr

    /** `egraph_new`: an e-graph to which nothing has been added. */
    constructor ()
      ensures nodes == []
    {
      nodes := [];
    }

    /** `EGraph::add`: record the enode and return its id.  Its children must
        be ids this e-graph returned earlier. */
    method Add(n: Node) returns (id: Id)
      requires ChildrenBelow(n, |nodes|)
      modifies this
      ensures nodes == old(nodes) + [n]
      ensures id == |old(nodes)| && id < |nodes| && nodes[id] == n
    {
      ExtendRecExpr(nodes, n);
      id := |nodes|;
      nodes := nodes + [n];
    }

    /** `build_symbol`: adds `Symbol(name)`. */
    method BuildSymbol(name: string) returns (id: Id)
      modifies this
      ensures nodes == old(nodes) + [Symbol(name)] && id == |old(nodes)|
    {
      id := Add(Symbol(name));
    }

    /** `build_num`: adds `Num(num)`. */
    method BuildNum(num: i32) returns (id: Id)
      modifies this
      ensures nodes == old(nodes) + [Num(num)] && id == |old(nodes)|
    {
      id := Add(Num(num));
    }

    /** `build_let`: first adds the bound name as a symbol, then a `Let`
        whose children are that symbol's id and the bound expression. */
    method BuildLet(name: string, expr: Id) returns (id: Id)
      requires expr < |nodes|
      modifies this
      ensures nodes == old(nodes) + [Symbol(name), Let(|old(nodes)|, expr)]
      ensures id == |old(nodes)| + 1
    {
      var nameSymbol := BuildSymbol(name);
      id := Add(Let(nameSymbol, expr));
    }

    /** `build_and`: operands passed to `add` in the order given. */
    method BuildAnd(lhs: Id, rhs: Id) returns (id: Id)
      requires lhs < |nodes| && rhs < |nodes|
      modifies this
      ensures nodes == old(nodes) + [And(lhs, rhs)] && id == |old(nodes)|
    {
      id := Add(And(lhs, rhs));
    }

    /** `build_or`: operands passed to `add` in the order given. */
    method BuildOr(lhs: Id, rhs: Id) returns (id: Id)
      requires lhs < |nodes| && rhs < |nodes|
      modifies this
      ensures nodes == old(nodes) + [Or(lhs, rhs)] && id == |old(nodes)|
    {
      id := Add(Or(lhs, rhs));
    }

    /** `build_not`: one operand. */
    method BuildNot(input: Id) returns (id: Id)
      requires input < |nodes|
      modifies this
      ensures nodes == old(nodes) + [Not(input)] && id == |old(nodes)|
    {
      id := Add(Not(input));
    }

    /** `build_module`: copies the statement ids in order into a `Module`
        enode, adds it, and returns the expression rooted at the new id.
        The statements' own subterms are unchanged by the addition. */
    method BuildModule(stmts: seq<Id>) returns (expr: RecExpr)
      requires forall k | 0 <= k < |stmts| :: stmts[k] < |nodes|
      modifies this
      ensures nodes == old(nodes) + [Module(stmts)]
      ensures expr == nodes && |expr| > 0 && Root(expr) == Module(stmts)
      ensures forall k | 0 <= k < |stmts| :: Subterm(expr, stmts[k]) == Subterm(old(nodes), stmts[k])
    {
      var stmtIds: seq<Id> := [];
      for j := 0 to |stmts|
        invariant stmtIds == stmts[..j]
      {
        stmtIds := stmtIds + [stmts[j]];
      }
      assert stmtIds == stmts;
      ghost var before := nodes;
      var exprId := Add(Module(stmtIds));
      expr := nodes;
      forall k | 0 <= k < |stmts|
        ensures Subterm(expr, stmts[k]) == Subterm(before, stmts[k])
      {
        SubtermPrefix(before, expr, stmts[k]);
      }
    }
  }

  /** The `Vec<BooleanId>` of statements that `append_expr` grows. */
  class StmtList {
    var ids: seq<Id>

    constructor ()
      ensures ids == []
    {
      ids := [];
    }

    /** `append_expr`: one more id at the end, earlier ones untouched. */
    method Append(id: Id)
      modifies this
      ensures ids == old(ids) + [id]
      ensures |ids| == |old(ids)| + 1 && ids[..|old(ids)|] == old(ids) && ids[|ids| - 1] == id
    {
      ids := ids + [id];
    }
  }

  /** Querying what `build_let` added gives back its arguments: the name,
      and the bound expression as it was before the call. */
  lemma {:induction false} BuildLetRoundTrip(e: RecExpr, e': RecExpr, name: string, expr: Id)
    requires expr < |e| && e' == e + [Symbol(name), Let(|e|, expr)]
    ensures ExprGetLetSymbol(e') == Ok(name)
    ensures ExprGetLetExpr(e') == Ok(Subterm(e, expr))
  {
    assert e'[..|e|] == e;
    SubtermPrefix(e, e', expr);
  }

  /** Querying what `build_module` returned gives one body expression per
      statement id, each the expression that id denoted before the call. */
  method ModuleRoundTrip(g: EGraph, stmts: seq<Id>) returns (body: seq<Tree>)
    requires forall k | 0 <= k < |stmts| :: stmts[k] < |g.nodes|
    modifies g
    ensures |body| == |stmts|
    ensures forall k | 0 <= k < |stmts| :: body[k] == Subterm(old(g.nodes), stmts[k])
  {
    var expr := g.BuildModule(stmts);
    var r := ExprGetModuleBody(expr);
    body := r.value;
  }

  /** Querying what `build_symbol` added gives back the name. */
  lemma BuildSymbolRoundTrip(e: RecExpr, e': RecExpr, name: string)
    requires e' == e + [Symbol(name)]
    ensures ExprIsSymbol(e') == Ok(true) && ExprGetSymbol(e') == Ok(name)
  {
  }
}
