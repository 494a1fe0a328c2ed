/** The rewrite rules of src/main.rs over its `BooleanLanguage`, with a
    boolean meaning for terms under which every rule is proved sound. */
module Rewrites {
  import opened Base

  /** A term of the language defined in src/main.rs. */
  datatype Term =
    | And(lhs: Term, rhs: Term)     // "&"
    | Or(lhs: Term, rhs: Term)      // "|"
    | Not(input: Term)              // "!"
    | Num(value: i32)
    | Symbol(sym: string)
    | Gate(cell: string, args: seq<Term>)

  /** What a term is evaluated against: a truth value per symbol, and a
      meaning for every gate other than the four library gates. */
  datatype Env = Env(symbols: string -> bool, otherGates: (string, seq<bool>) -> bool)

  /** The library gates of the rules: two-input AND, OR, NAND and XOR. */
  function GateValue(cell: string, ins: seq<bool>, env: Env): bool
  {
    if |ins| == 2 && cell == "and2" then ins[0] && ins[1]
    else if |ins| == 2 && cell == "or2" then ins[0] || ins[1]
    else if |ins| == 2 && cell == "nand2" then !(ins[0] && ins[1])
    else if |ins| == 2 && cell == "xor2" then ins[0] != ins[1]
    else env.otherGates(cell, ins)
  }

  /** The boolean meaning of a term; a literal is true when it is not 0. */
  function Eval(t: Term, env: Env): bool
  {
    match t
    case And(a, b) => Eval(a, env) && Eval(b, env)
    case Or(a, b) => Eval(a, env) || Eval(b, env)
    case Not(a) => !Eval(a, env)
    case Num(n) => n != 0
    case Symbol(s) => env.symbols(s)
    case Gate(cell, args) => GateValue(cell, seq(|args|, i requires 0 <= i < |args| => Eval(args[i], env)), env)
  }

  /** A rule side: a term with pattern variables (`?x`). */
  datatype Pattern =
    | Var(name: string)
    | PAnd(lhs: Pattern, rhs: Pattern)
    | POr(lhs: Pattern, rhs: Pattern)
    | PNot(input: Pattern)
    | PNum(value: i32)
    | PSymbol(sym: string)
    | PGate(cell: string, args: seq<Pattern>)

  /** The term obtained by replacing every variable by its binding. */
  function Instantiate(p: Pattern, binding: string -> Term): Term
  {
    match p
    case Var(x) => binding(x)
    case PAnd(a, b) => And(Instantiate(a, binding), Instantiate(b, binding))
    case POr(a, b) => Or(Instantiate(a, binding), Instantiate(b, binding))
    case PNot(a) => Not(Instantiate(a, binding))
    case PNum(n) => Num(n)
    case PSymbol(s) => Symbol(s)
    case PGate(cell, args) => Gate(cell, seq(|args|, i requires 0 <= i < |args| => Instantiate(args[i], binding)))
  }

  /** The variables a pattern mentions. */
  function Vars(p: Pattern): set<string>
  {
    match p
    case Var(x) => {x}
    case PAnd(a, b) => Vars(a) + Vars(b)
    case POr(a, b) => Vars(a) + Vars(b)
    case PNot(a) => Vars(a)
    case PNum(_) => {}
    case PSymbol(_) => {}
    case PGate(_, args) => set i, x | 0 <= i < |args| && x in Vars(args[i]) :: x
  }

  /** Instantiating reads the binding only at the pattern's variables. */
  lemma {:induction false} InstantiateUsesOnlyVars(p: Pattern, b1: string -> Term, b2: string -> Term)
    requires forall x | x in Vars(p) :: b1(x) == b2(x)
    ensures Instantiate(p, b1) == Instantiate(p, b2)
  {
    match p
    case Var(_) =>
    case PAnd(a, b) =>
      InstantiateUsesOnlyVars(a, b1, b2);
      InstantiateUsesOnlyVars(b, b1, b2);
    case POr(a, b) =>
      InstantiateUsesOnlyVars(a, b1, b2);
      InstantiateUsesOnlyVars(b, b1, b2);
    case PNot(a) =>
      InstantiateUsesOnlyVars(a, b1, b2);
    case PNum(_) =>
    case PSymbol(_) =>
    case PGate(cell, args) =>
      forall i | 0 <= i < |args|
        ensures Instantiate(args[i], b1) == Instantiate(args[i], b2)
      {
        forall x | x in Vars(args[i]) ensures b1(x) == b2(x) {
          assert x in Vars(p);
        }
        InstantiateUsesOnlyVars(args[i], b1, b2);
      }
      assert Instantiate(p, b1).args == Instantiate(p, b2).args;
  }

  /** The meaning of a pattern once each variable has a truth value. */
  function EvalPattern(p: Pattern, vars: string -> bool, env: Env): bool
  {
    match p
    case Var(x) => vars(x)
    case PAnd(a, b) => EvalPattern(a, vars, env) && EvalPattern(b, vars, env)
    case POr(a, b) => EvalPattern(a, vars, env) || EvalPattern(b, vars, env)
    case PNot(a) => !EvalPattern(a, vars, env)
    case PNum(n) => n != 0
    case PSymbol(s) => env.symbols(s)
    case PGate(cell, args) =>
      GateValue(cell, seq(|args|, i requires 0 <= i < |args| => EvalPattern(args[i], vars, env)), env)
  }

  /** Evaluating an instance is evaluating the pattern with each variable
      given the value of the term bound to it. */
  lemma {:induction false} EvalInstantiate(p: Pattern, binding: string -> Term, vars: string -> bool, env: Env)
    requires forall x :: vars(x) == Eval(binding(x), env)
    ensures Eval(Instantiate(p, binding), env) == EvalPattern(p, vars, env)
  {
    match p
    case Var(_) =>
    case PAnd(a, b) =>
      EvalInstantiate(a, binding, vars, env);
      EvalInstantiate(b, binding, vars, env);
    case POr(a, b) =>
      EvalInstantiate(a, binding, vars, env);
      EvalInstantiate(b, binding, vars, env);
    case PNot(a) =>
      EvalInstantiate(a, binding, vars, env);
    case PNum(_) =>
    case PSymbol(_) =>
    case PGate(cell, args) =>
      var t := Instantiate(p, binding);
      forall i | 0 <= i < |args|
        ensures Eval(t.args[i], env) == EvalPattern(args[i], vars, env)
      {
        EvalInstantiate(args[i], binding, vars, env);
      }
      assert seq(|t.args|, i requires 0 <= i < |t.args| => Eval(t.args[i], env))
          == seq(|args|, i requires 0 <= i < |args| => EvalPattern(args[i], vars, env));
  }

  /** `rewrite!(name; lhs => rhs)`. */
  datatype Rule = Rule(name: string, lhs: Pattern, rhs: Pattern)

  const X := Var("x")
  const Y := Var("y")
  const Z := Var("z")
  const False := PNum(0)
  const True := PNum(1)

  // Axioms of Boolean logic and De Morgan's laws.
  const AssociateAnd := Rule("associate-and", PAnd(X, PAnd(Y, Z)), PAnd(PAnd(X, Y), Z))
  const AssociateOr := Rule("associate-or", POr(X, POr(Y, Z)), POr(POr(X, Y), Z))
  const CommuteAnd := Rule("commute-and", PAnd(X, Y), PAnd(Y, X))
  const CommuteOr := Rule("commute-or", POr(X, Y), POr(Y, X))
  const DistributeAnd := Rule("distribute-and", PAnd(X, POr(Y, Z)), POr(PAnd(X, Y), PAnd(X, Z)))
  const DistributeOr := Rule("distribute-or", POr(X, PAnd(Y, Z)), PAnd(POr(X, Y), POr(X, Z)))
  const IdentityAnd := Rule("identity-and", PAnd(X, True), X)
  const IdentityOr := Rule("identity-or", POr(X, False), X)
  const AnnihilateAnd := Rule("annihilate-and", PAnd(X, False), False)
  const AnnihilateOr := Rule("annihilate-or", POr(X, True), True)
  const IdempotentAnd := Rule("idempotent-and", PAnd(X, X), X)
  const IdempotentOr := Rule("idempotent-or", POr(X, X), X)
  const AbsorbAnd := Rule("absorb-and", PAnd(X, POr(X, Y)), X)
  const AbsorbOr := Rule("absorb-or", POr(X, PAnd(X, Y)), X)
  const ComplementAnd := Rule("complement-and", PAnd(X, PNot(X)), False)
  const ComplementOr := Rule("complement-or", POr(X, PNot(X)), True)
  const NotFalse := Rule("not-0", PNot(False), True)
  const NotTrue := Rule("not-1", PNot(True), False)
  const NotNot := Rule("not-not", PNot(PNot(X)), X)
  const DeMorganAnd := Rule("demorgan-and", PNot(PAnd(X, Y)), POr(PNot(X), PNot(Y)))
  const DeMorganOr := Rule("demorgan-or", PNot(POr(X, Y)), PAnd(PNot(X), PNot(Y)))

  // Definitions of gates from the cell library.
  const And2 := Rule("and2", PAnd(X, Y), PGate("and2", [X, Y]))
  const Or2 := Rule("or2", POr(X, Y), PGate("or2", [X, Y]))
  const Nand2 := Rule("nand2", POr(PNot(X), PNot(Y)), PGate("nand2", [X, Y]))
  const Xor2 := Rule("xor2", POr(PAnd(X, PNot(Y)), PAnd(PNot(X), Y)), PGate("xor2", [X, Y]))

  /** The axioms that only reorder operands. */
  const Reorderings: seq<Rule> := [AssociateAnd, AssociateOr, CommuteAnd, CommuteOr]

  /** The axioms that drop operators or operands. */
  const Simplifications: seq<Rule> := [
    IdentityAnd, IdentityOr, AnnihilateAnd, AnnihilateOr, IdempotentAnd, IdempotentOr,
    AbsorbAnd, AbsorbOr, ComplementAnd, ComplementOr, NotFalse, NotTrue, NotNot
  ]

  /** The axioms that duplicate or push operators down. */
  const Expansions: seq<Rule> := [DistributeAnd, DistributeOr, DeMorganAnd, DeMorganOr]

  /** The axioms, in the order the source lists them. */
  const Axioms: seq<Rule> := [
    AssociateAnd, AssociateOr, CommuteAnd, CommuteOr, DistributeAnd, DistributeOr,
    IdentityAnd, IdentityOr, AnnihilateAnd, AnnihilateOr, IdempotentAnd, IdempotentOr,
    AbsorbAnd, AbsorbOr, ComplementAnd, ComplementOr, NotFalse, NotTrue, NotNot,
    DeMorganAnd, DeMorganOr
  ]

  const GateRules: seq<Rule> := [And2, Or2, Nand2, Xor2]

  /** The rule set, in the order the source lists it. */
  const Rules: seq<Rule> := Axioms + GateRules

  /** The rule set: 21 axioms followed by the 4 gate definitions, under the
      source's names and in its order. */
  lemma RuleTable()
    ensures |Axioms| == 21 && |GateRules| == 4 && |Rules| == 25
    ensures seq(|Rules|, i requires 0 <= i < |Rules| => Rules[i].name) == [
        "associate-and", "associate-or", "commute-and", "commute-or", "distribute-and",
        "distribute-or", "identity-and", "identity-or", "annihilate-and", "annihilate-or",
        "idempotent-and", "idempotent-or", "absorb-and", "absorb-or", "complement-and",
        "complement-or", "not-0", "not-1", "not-not", "demorgan-and",
        "demorgan-or", "and2", "or2", "nand2", "xor2"
      ]
  {
  }

  /** A two-input gate pattern mentions exactly its two variables. */
  lemma VarsGatePattern(cell: string)
    ensures Vars(PGate(cell, [X, Y])) == {"x", "y"}
  {
    var args := [X, Y];
    assert "x" in Vars(args[0]) && "y" in Vars(args[1]);
  }

  /** A rule binds every variable its right-hand side uses. */
  predicate Binds(r: Rule)
  {
    Vars(r.rhs) <= Vars(r.lhs)
  }

  /** The simplifying axioms one by one. */
  lemma SimplificationVariables()
    ensures Binds(IdentityAnd)
    ensures Binds(IdentityOr)
    ensures Binds(AnnihilateAnd)
    ensures Binds(AnnihilateOr)
    ensures Binds(IdempotentAnd)
    ensures Binds(IdempotentOr)
    ensures Binds(AbsorbAnd)
    ensures Binds(AbsorbOr)
    ensures Binds(ComplementAnd)
    ensures Binds(ComplementOr)
    ensures Binds(NotFalse)
    ensures Binds(NotTrue)
    ensures Binds(NotNot)
  {
  }

  /** The gate rules one by one: the gate's two inputs are bound. */
  lemma GateVariables()
    ensures Binds(And2) && Binds(Or2) && Binds(Nand2) && Binds(Xor2)
  {
    VarsGatePattern("and2");
    VarsGatePattern("or2");
    VarsGatePattern("nand2");
    VarsGatePattern("xor2");
  }

  lemma ReorderingsBind(r: Rule)
    requires r in Reorderings
    ensures Binds(r)
  {
  }

  lemma SimplificationsBind(r: Rule)
    requires r in Simplifications
    ensures Binds(r)
  {
    SimplificationVariables();
    assert r in {IdentityAnd, IdentityOr, AnnihilateAnd, AnnihilateOr, IdempotentAnd, IdempotentOr, AbsorbAnd,
                 AbsorbOr, ComplementAnd, ComplementOr, NotFalse, NotTrue, NotNot};
  }

  lemma ExpansionsBind(r: Rule)
    requires r in Expansions
    ensures Binds(r)
  {
  }

  lemma GateRulesBind(r: Rule)
    requires r in GateRules
    ensures Binds(r)
  {
    GateVariables();
    assert r == And2 || r == Or2 || r == Nand2 || r == Xor2;
  }

  /** Every rule's right-hand side uses only variables its left-hand side
      binds, so applying a match never meets an unbound variable. */
  lemma RulesBindTheirVariables(r: Rule)
    requires r in Rules
    ensures Binds(r)
  {
    if r in GateRules {
      GateRulesBind(r);
    } else {
      AxiomGroups(r);
      if r in Reorderings {
        ReorderingsBind(r);
      } else if r in Simplifications {
        SimplificationsBind(r);
      } else {
        ExpansionsBind(r);
      }
    }
  }

  /** Both sides of a rule have the same value for every value of its
      variables. */
  ghost predicate Holds(r: Rule, vars: string -> bool, env: Env)
  {
    EvalPattern(r.lhs, vars, env) == EvalPattern(r.rhs, vars, env)
  }

  /** The three groups cover exactly the axioms. */
  lemma AxiomGroups(r: Rule)
    ensures r in Axioms <==> r in Reorderings || r in Simplifications || r in Expansions
  {
  }

  lemma ReorderingsHold(r: Rule, vars: string -> bool, env: Env)
    requires r in Reorderings
    ensures Holds(r, vars, env)
  {
  }

  /** The simplifying axioms one by one. */
  lemma SimplificationIdentities(vars: string -> bool, env: Env)
    ensures Holds(IdentityAnd, vars, env)
    ensures Holds(IdentityOr, vars, env)
    ensures Holds(AnnihilateAnd, vars, env)
    ensures Holds(AnnihilateOr, vars, env)
    ensures Holds(IdempotentAnd, vars, env)
    ensures Holds(IdempotentOr, vars, env)
    ensures Holds(AbsorbAnd, vars, env)
    ensures Holds(AbsorbOr, vars, env)
    ensures Holds(ComplementAnd, vars, env)
    ensures Holds(ComplementOr, vars, env)
    ensures Holds(NotFalse, vars, env)
    ensures Holds(NotTrue, vars, env)
    ensures Holds(NotNot, vars, env)
  {
  }

  lemma SimplificationsHold(r: Rule, vars: string -> bool, env: Env)
    requires r in Simplifications
    ensures Holds(r, vars, env)
  {
    SimplificationIdentities(vars, env);
    assert r in {IdentityAnd, IdentityOr, AnnihilateAnd, AnnihilateOr, IdempotentAnd, IdempotentOr,
                 AbsorbAnd, AbsorbOr, ComplementAnd, ComplementOr, NotFalse, NotTrue, NotNot};
  }

  lemma ExpansionsHold(r: Rule, vars: string -> bool, env: Env)
    requires r in Expansions
    ensures Holds(r, vars, env)
  {
  }

  /** A two-input gate pattern evaluates its gate on the two variables. */
  lemma EvalGatePattern(cell: string, vars: string -> bool, env: Env)
    ensures EvalPattern(PGate(cell, [X, Y]), vars, env) == GateValue(cell, [vars("x"), vars("y")], env)
  {
    var args := [X, Y];
    assert seq(|args|, i requires 0 <= i < |args| => EvalPattern(args[i], vars, env)) == [vars("x"), vars("y")];
  }

  /** Each gate rule replaces a formula by the library gate it defines. */
  lemma GateRulesHold(r: Rule, vars: string -> bool, env: Env)
    requires r in GateRules
    ensures Holds(r, vars, env)
  {
    if r == And2 {
      EvalGatePattern("and2", vars, env);
    } else if r == Or2 {
      EvalGatePattern("or2", vars, env);
    } else if r == Nand2 {
      EvalGatePattern("nand2", vars, env);
    } else {
      EvalGatePattern("xor2", vars, env);
      var x, y := vars("x"), vars("y");
      assert EvalPattern(PAnd(X, PNot(Y)), vars, env) == (x && !y);
      assert EvalPattern(PAnd(PNot(X), Y), vars, env) == (!x && y);
    }
  }

  /** Every rule is sound: whatever terms its variables are bound to, both
      sides have the same value under every environment. */
  lemma RuleSound(r: Rule, binding: string -> Term, env: Env)
    requires r in Rules
    ensures Eval(Instantiate(r.lhs, binding), env) == Eval(Instantiate(r.rhs, binding), env)
  {
    var vars := x => Eval(binding(x), env);
    EvalInstantiate(r.lhs, binding, vars, env);
    EvalInstantiate(r.rhs, binding, vars, env);
    if r in GateRules {
      GateRulesHold(r, vars, env);
    } else {
      AxiomGroups(r);
      if r in Reorderings {
        ReorderingsHold(r, vars, env);
      } else if r in Simplifications {
        SimplificationsHold(r, vars, env);
      } else {
        ExpansionsHold(r, vars, env);
      }
    }
  }
}
