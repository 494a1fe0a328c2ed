/** `GateCostFunction::cost` of src/main.rs: every operator has a cost, and a
    term costs its operator plus its children.  Boolean operators cost more
    than gates, so extraction prefers gates; literals and symbols are free. */
module GateCost {
  import opened Rewrites

  /** The cost of the operator at the root alone. */
  function OpCost(t: Term): nat
  {
    match t
    case And(_, _) => 2
    case Or(_, _) => 2
    case Not(_) => 2
    case Gate(_, _) => 1
    case Num(_) => 0
    case Symbol(_) => 0
  }

  /** The cost of a term: the root operator's cost, then each child's cost
      added in order (the `fold` over the children). */
  function Cost(t: Term): (c: int)
    ensures c >= OpCost(t) >= 0
  {
    match t
    case And(a, b) => OpCost(t) + Cost(a) + Cost(b)
    case Or(a, b) => OpCost(t) + Cost(a) + Cost(b)
    case Not(a) => OpCost(t) + Cost(a)
    case Gate(_, args) => Fold(OpCost(t), seq(|args|, i requires 0 <= i < |args| => Cost(args[i])))
    case Num(_) => OpCost(t)
    case Symbol(_) => OpCost(t)
  }

  /** `fold(init, |sum, id| sum + costs(id))`: the children's costs added to
      `init` from the first child to the last. */
  function Fold(init: int, costs: seq<int>): (sum: int)
    ensures (forall i | 0 <= i < |costs| :: costs[i] >= 0) ==> sum >= init
  {
    if costs == [] then init else Fold(init, costs[..|costs| - 1]) + costs[|costs| - 1]
  }

  /** Literals and symbols cost nothing; every operator costs at least 1. */
  lemma LeavesAreFree(t: Term)
    ensures Cost(t) == 0 <==> t.Num? || t.Symbol?
  {
  }

  /** The cost of a pattern once each variable has a cost. */
  function PatternCost(p: Pattern, costs: string -> int): int
  {
    match p
    case Var(x) => costs(x)
    case PAnd(a, b) => 2 + PatternCost(a, costs) + PatternCost(b, costs)
    case POr(a, b) => 2 + PatternCost(a, costs) + PatternCost(b, costs)
    case PNot(a) => 2 + PatternCost(a, costs)
    case PNum(_) => 0
    case PSymbol(_) => 0
    case PGate(_, args) => Fold(1, seq(|args|, i requires 0 <= i < |args| => PatternCost(args[i], costs)))
  }

  /** The cost of an instance is the pattern's cost with each variable
      costing what the term bound to it costs. */
  lemma {:induction false} CostInstantiate(p: Pattern, binding: string -> Term, costs: string -> int)
    requires forall x :: costs(x) == Cost(binding(x))
    ensures Cost(Instantiate(p, binding)) == PatternCost(p, costs)
  {
    match p
    case Var(_) =>
    case PAnd(a, b) =>
      CostInstantiate(a, binding, costs);
      CostInstantiate(b, binding, costs);
    case POr(a, b) =>
      CostInstantiate(a, binding, costs);
      CostInstantiate(b, binding, costs);
    case PNot(a) =>
      CostInstantiate(a, binding, costs);
    case PNum(_) =>
    case PSymbol(_) =>
    case PGate(cell, args) =>
      var t := Instantiate(p, binding);
      forall i | 0 <= i < |args|
        ensures Cost(t.args[i]) == PatternCost(args[i], costs)
      {
        CostInstantiate(args[i], binding, costs);
      }
      assert seq(|t.args|, i requires 0 <= i < |t.args| => Cost(t.args[i]))
          == seq(|args|, i requires 0 <= i < |args| => PatternCost(args[i], costs));
  }

  /** Reordering axioms keep the cost exactly. */
  lemma ReorderingsKeepCost(r: Rule, costs: string -> int)
    requires r in Reorderings
    ensures PatternCost(r.rhs, costs) == PatternCost(r.lhs, costs)
  {
  }

  /** The simplifying axioms one by one: none raises the cost. */
  lemma SimplificationCosts(costs: string -> int)
    requires forall x :: costs(x) >= 0
    ensures PatternCost(IdentityAnd.rhs, costs) <= PatternCost(IdentityAnd.lhs, costs)
    ensures PatternCost(IdentityOr.rhs, costs) <= PatternCost(IdentityOr.lhs, costs)
    ensures PatternCost(AnnihilateAnd.rhs, costs) <= PatternCost(AnnihilateAnd.lhs, costs)
    ensures PatternCost(AnnihilateOr.rhs, costs) <= PatternCost(AnnihilateOr.lhs, costs)
    ensures PatternCost(IdempotentAnd.rhs, costs) <= PatternCost(IdempotentAnd.lhs, costs)
    ensures PatternCost(IdempotentOr.rhs, costs) <= PatternCost(IdempotentOr.lhs, costs)
    ensures PatternCost(AbsorbAnd.rhs, costs) <= PatternCost(AbsorbAnd.lhs, costs)
    ensures PatternCost(AbsorbOr.rhs, costs) <= PatternCost(AbsorbOr.lhs, costs)
    ensures PatternCost(ComplementAnd.rhs, costs) <= PatternCost(ComplementAnd.lhs, costs)
    ensures PatternCost(ComplementOr.rhs, costs) <= PatternCost(ComplementOr.lhs, costs)
    ensures PatternCost(NotFalse.rhs, costs) <= PatternCost(NotFalse.lhs, costs)
    ensures PatternCost(NotTrue.rhs, costs) <= PatternCost(NotTrue.lhs, costs)
    ensures PatternCost(NotNot.rhs, costs) <= PatternCost(NotNot.lhs, costs)
  {
  }

  /** Simplifying axioms never raise the cost of a term whose parts have
      non-negative cost. */
  lemma SimplificationsNeverRaiseCost(r: Rule, costs: string -> int)
    requires r in Simplifications
    requires forall x :: costs(x) >= 0
    ensures PatternCost(r.rhs, costs) <= PatternCost(r.lhs, costs)
  {
    SimplificationCosts(costs);
    assert r in {IdentityAnd, IdentityOr, AnnihilateAnd, AnnihilateOr, IdempotentAnd, IdempotentOr,
                 AbsorbAnd, AbsorbOr, ComplementAnd, ComplementOr, NotFalse, NotTrue, NotNot};
  }

  /** The expanding axioms do raise the cost: extraction, not rewriting,
      is what keeps them from growing the result. */
  lemma ExpansionsRaiseCost(costs: string -> int)
    ensures PatternCost(DistributeAnd.rhs, costs) == PatternCost(DistributeAnd.lhs, costs) + 2 + costs("x")
    ensures PatternCost(DistributeOr.rhs, costs) == PatternCost(DistributeOr.lhs, costs) + 2 + costs("x")
    ensures PatternCost(DeMorganAnd.rhs, costs) == PatternCost(DeMorganAnd.lhs, costs) + 2
    ensures PatternCost(DeMorganOr.rhs, costs) == PatternCost(DeMorganOr.lhs, costs) + 2
  {
  }

  /** A two-input gate pattern costs 1 plus its two variables. */
  lemma GatePatternCost(cell: string, costs: string -> int)
    ensures PatternCost(PGate(cell, [X, Y]), costs) == 1 + costs("x") + costs("y")
  {
    var args := [X, Y];
    var cs := seq(|args|, i requires 0 <= i < |args| => PatternCost(args[i], costs));
    assert cs == [costs("x"), costs("y")];
    assert cs[..1][..0] == [];
    assert Fold(1, cs[..1]) == 1 + costs("x");
    assert Fold(1, cs) == 1 + costs("x") + costs("y");
  }

  /** Every gate rule strictly lowers the cost: `and2`/`or2` by exactly 1,
      `nand2` by 5, `xor2` by 9 plus the operands' costs. */
  lemma GateRulesLowerCost(r: Rule, costs: string -> int)
    requires r in GateRules
    requires forall x :: costs(x) >= 0
    ensures PatternCost(r.rhs, costs) < PatternCost(r.lhs, costs)
    ensures r == And2 || r == Or2 ==> PatternCost(r.rhs, costs) == PatternCost(r.lhs, costs) - 1
    ensures r == Nand2 ==> PatternCost(r.rhs, costs) == PatternCost(r.lhs, costs) - 5
    ensures r == Xor2 ==> PatternCost(r.rhs, costs) == PatternCost(r.lhs, costs) - 9 - costs("x") - costs("y")
  {
    var x, y := costs("x"), costs("y");
    if r == And2 || r == Or2 {
      GatePatternCost(r.rhs.cell, costs);
    } else if r == Nand2 {
      GatePatternCost("nand2", costs);
      assert PatternCost(r.lhs, costs) == 6 + x + y;
    } else {
      GatePatternCost("xor2", costs);
      assert PatternCost(PAnd(X, PNot(Y)), costs) == 4 + x + y;
      assert PatternCost(PAnd(PNot(X), Y), costs) == 4 + x + y;
    }
  }

  /** Instantiated: whatever the variables are bound to, a gate rule yields a
      cheaper term, a reordering an equally expensive one, and a
      simplification one that is no more expensive. */
  lemma RuleCost(r: Rule, binding: string -> Term)
    requires r in Rules
    ensures r in GateRules ==> Cost(Instantiate(r.rhs, binding)) < Cost(Instantiate(r.lhs, binding))
    ensures r in Reorderings ==> Cost(Instantiate(r.rhs, binding)) == Cost(Instantiate(r.lhs, binding))
    ensures r in Simplifications ==> Cost(Instantiate(r.rhs, binding)) <= Cost(Instantiate(r.lhs, binding))
  {
    var costs := x => Cost(binding(x));
    CostInstantiate(r.lhs, binding, costs);
    CostInstantiate(r.rhs, binding, costs);
    if r in GateRules {
      GateRulesLowerCost(r, costs);
    }
    if r in Reorderings {
      ReorderingsKeepCost(r, costs);
    }
    if r in Simplifications {
      SimplificationsNeverRaiseCost(r, costs);
    }
  }
}
