/** The expression query functions of src/lib.rs (`expr_get_*`,
    `expr_is_symbol`).  Every `panic!` and every `unwrap` on a missing value
    becomes an explicit `Err`. */
module Queries {
  import opened Base
  import opened BooleanLanguage

  /** Why a query fails. */
  datatype Failure =
    | EmptyExpr              // `last().unwrap()` on an expression with no nodes
    | Panic(message: string) // an explicit `panic!` with this message
    | NoOutputPin            // `names[0]` on an empty vector

  const NotAModule := Panic("expected expr to be a module")
  const NotALet := Panic("expected expr to be a let")
  const LetNameNotSymbol := Panic("expected first child of let to be a symbol")
  const NotAGate := Panic("expected expr to be a gate")
  const InputNameNotSymbol := Panic("expected first child of Input to be a symbol")
  const OutputNameNotSymbol := Panic("expected first child of Output to be a symbol")
  const NotASymbol := Panic("expected expr to be a symbol")

  /** The root (last node) of a non-empty expression. */
  function Root(e: RecExpr): Node
    requires |e| > 0
  {
    e[|e| - 1]
  }

  /** The two kinds of gate pin. */
  datatype PinKind = InputPin | OutputPin

  predicate IsPin(n: Node, kind: PinKind)
  {
    match kind
    case InputPin => n.Input?
    case OutputPin => n.Output?
  }

  /** The pins of the given kind among `pins`, in their order: what the
      query loops visit without skipping. */
  function PinsOf(e: RecExpr, pins: seq<Id>, kind: PinKind): (r: seq<Id>)
    requires forall k | 0 <= k < |pins| :: pins[k] < |e|
    ensures |r| <= |pins|
    ensures forall k | 0 <= k < |r| :: r[k] in pins && r[k] < |e| && IsPin(e[r[k]], kind)
    ensures forall k | 0 <= k < |pins| && IsPin(e[pins[k]], kind) :: pins[k] in r
    ensures (forall k | 0 <= k < |pins| :: IsPin(e[pins[k]], kind)) ==> r == pins
  {
    if pins == [] then []
    else
      var init, p := pins[..|pins| - 1], pins[|pins| - 1];
      var rest := PinsOf(e, init, kind);
      assert pins == init + [p];
      assert forall x | x in init :: x in pins;
      rest + if IsPin(e[p], kind) then [p] else []
  }

  /** The name child of a pin node, which precedes the pin. */
  function PinName(e: RecExpr, p: Id): (c: Id)
    requires p < |e| && (e[p].Input? || e[p].Output?)
    ensures c < p && c == e[p].pinName
  {
    assert ChildrenBelow(e[p], p);
    e[p].pinName
  }

  /** The expression child of an input pin, which precedes the pin. */
  function PinExpr(e: RecExpr, p: Id): (c: Id)
    requires p < |e| && e[p].Input?
    ensures c < p && c == e[p].pinExpr
  {
    assert ChildrenBelow(e[p], p);
    e[p].pinExpr
  }

  /** Filtering keeps order and multiplicity: the pins kept from a
      concatenation are those kept from each part, one after the other. */
  lemma {:induction false} PinsOfAppend(e: RecExpr, xs: seq<Id>, ys: seq<Id>, kind: PinKind)
    requires forall k | 0 <= k < |xs| :: xs[k] < |e|
    requires forall k | 0 <= k < |ys| :: ys[k] < |e|
    ensures PinsOf(e, xs + ys, kind) == PinsOf(e, xs, kind) + PinsOf(e, ys, kind)
    decreases |ys|
  {
    if ys == [] {
      assert xs + ys == xs;
    } else {
      var init := ys[..|ys| - 1];
      var all := xs + ys;
      assert all[..|all| - 1] == xs + init && all[|all| - 1] == ys[|ys| - 1];
      PinsOfAppend(e, xs, init, kind);
      PinsOfLast(e, all, kind);
      PinsOfLast(e, ys, kind);
    }
  }

  /** Unfolding the filter at its last pin. */
  lemma PinsOfLast(e: RecExpr, pins: seq<Id>, kind: PinKind)
    requires |pins| > 0 && forall k | 0 <= k < |pins| :: pins[k] < |e|
    ensures PinsOf(e, pins, kind) == PinsOf(e, pins[..|pins| - 1], kind) + PinsOf(e, [pins[|pins| - 1]], kind)
  {
  }

  /** A single pin is kept exactly when it has the kind. */
  lemma PinsOfOne(e: RecExpr, p: Id, kind: PinKind)
    requires p < |e|
    ensures PinsOf(e, [p], kind) == if IsPin(e[p], kind) then [p] else []
  {
  }

  /** Filtering one more pin extends the filtered list by at most that pin. */
  lemma PinsOfSnoc(e: RecExpr, pins: seq<Id>, j: nat, kind: PinKind)
    requires j < |pins| && forall k | 0 <= k < |pins| :: pins[k] < |e|
    ensures PinsOf(e, pins[..j + 1], kind)
            == PinsOf(e, pins[..j], kind) + if IsPin(e[pins[j]], kind) then [pins[j]] else []
  {
    assert pins[..j + 1][..j] == pins[..j];
  }

  /** Every pin in `ps` is named by a symbol. */
  ghost predicate NamedPins(e: RecExpr, ps: seq<Id>)
  {
    forall k | 0 <= k < |ps| ::
      ps[k] < |e| && (e[ps[k]].Input? || e[ps[k]].Output?) && e[PinName(e, ps[k])].Symbol?
  }

  /** `names` lists the symbols naming the pins `ps`, in order. */
  ghost predicate NamesOfPins(e: RecExpr, ps: seq<Id>, names: seq<string>)
    requires NamedPins(e, ps)
  {
    |names| == |ps| && forall k | 0 <= k < |ps| :: names[k] == e[PinName(e, ps[k])].sym
  }

  /** A pin whose name is not a symbol spoils any list that holds it. */
  lemma UnnamedPin(e: RecExpr, ps: seq<Id>, p: Id)
    requires p in ps && p < |e| && (e[p].Input? || e[p].Output?) && !e[PinName(e, p)].Symbol?
    ensures !NamedPins(e, ps)
  {
    var k :| 0 <= k < |ps| && ps[k] == p;
  }

  /** A scanned pin of the kind whose name is not a symbol spoils the
      whole list of pins of that kind. */
  lemma UnnamedPinAt(e: RecExpr, pins: seq<Id>, j: nat, kind: PinKind)
    requires j < |pins| && forall k | 0 <= k < |pins| :: pins[k] < |e|
    requires IsPin(e[pins[j]], kind) && !e[PinName(e, pins[j])].Symbol?
    ensures !NamedPins(e, PinsOf(e, pins, kind))
  {
    UnnamedPin(e, PinsOf(e, pins, kind), pins[j]);
  }

  /** One loop step over a named pin of the kind: its name is pushed. */
  lemma NameStep(e: RecExpr, pins: seq<Id>, j: nat, kind: PinKind, names: seq<string>)
    requires j < |pins| && forall k | 0 <= k < |pins| :: pins[k] < |e|
    requires NamedPins(e, PinsOf(e, pins[..j], kind)) && NamesOfPins(e, PinsOf(e, pins[..j], kind), names)
    requires IsPin(e[pins[j]], kind) && e[PinName(e, pins[j])].Symbol?
    ensures NamedPins(e, PinsOf(e, pins[..j + 1], kind))
    ensures NamesOfPins(e, PinsOf(e, pins[..j + 1], kind), names + [e[PinName(e, pins[j])].sym])
  {
    PinsOfSnoc(e, pins, j, kind);
    NamedSnoc(e, PinsOf(e, pins[..j], kind), names, pins[j]);
  }

  /** One loop step over a pin of the other kind: nothing changes. */
  lemma SkipStep(e: RecExpr, pins: seq<Id>, j: nat, kind: PinKind, names: seq<string>)
    requires j < |pins| && forall k | 0 <= k < |pins| :: pins[k] < |e|
    requires NamedPins(e, PinsOf(e, pins[..j], kind)) && NamesOfPins(e, PinsOf(e, pins[..j], kind), names)
    requires !IsPin(e[pins[j]], kind)
    ensures NamedPins(e, PinsOf(e, pins[..j + 1], kind))
    ensures NamesOfPins(e, PinsOf(e, pins[..j + 1], kind), names)
  {
    PinsOfSnoc(e, pins, j, kind);
  }

  /** Naming one more pin extends both predicates. */
  lemma NamedSnoc(e: RecExpr, ps: seq<Id>, names: seq<string>, p: Id)
    requires NamedPins(e, ps) && NamesOfPins(e, ps, names)
    requires p < |e| && (e[p].Input? || e[p].Output?) && e[PinName(e, p)].Symbol?
    ensures NamedPins(e, ps + [p]) && NamesOfPins(e, ps + [p], names + [e[PinName(e, p)].sym])
  {
  }

  /** `exprs` lists the expressions wired to the input pins `ps`, in order. */
  ghost predicate ExprsOfPins(e: RecExpr, ps: seq<Id>, exprs: seq<Tree>)
  {
    && |exprs| == |ps|
    && forall k | 0 <= k < |ps| ::
         ps[k] < |e| && e[ps[k]].Input? && exprs[k] == Subterm(e, PinExpr(e, ps[k]))
  }

  /** The pins of the root gate. */
  function GatePins(e: RecExpr): (pins: seq<Id>)
    requires |e| > 0 && Root(e).Gate?
    ensures pins == Root(e).pins
    ensures forall k | 0 <= k < |pins| :: pins[k] < |e| - 1
  {
    assert ChildrenBelow(Root(e), |e| - 1);
    Root(e).pins
  }

  /** `expr_get_module_body`: one sub-expression per statement id of the
      root module, in order, each the subterm rooted at that id. */
  method ExprGetModuleBody(e: RecExpr) returns (r: Result<seq<Tree>, Failure>)
    ensures |e| == 0 ==> r == Err(EmptyExpr)
    ensures |e| > 0 && !Root(e).Module? ==> r == Err(NotAModule)
    ensures r.Ok? <==> |e| > 0 && Root(e).Module?
    ensures r.Ok? ==>
              && |r.value| == |Root(e).stmts|
              && forall k | 0 <= k < |r.value| :: Root(e).stmts[k] < |e| && r.value[k] == Subterm(e, Root(e).stmts[k])
  {
    if |e| == 0 {
      return Err(EmptyExpr);
    }
    var root := e[|e| - 1];
    assert ChildrenBelow(root, |e| - 1);
    match root {
      case Module(ids) =>
        var exprs: seq<Tree> := [];
        for j := 0 to |ids|
          invariant |exprs| == j
          invariant forall k | 0 <= k < j :: exprs[k] == Subterm(e, ids[k])
        {
          exprs := exprs + [Subterm(e, ids[j])];
        }
        return Ok(exprs);
      case _ =>
        return Err(NotAModule);
    }
  }

  /** `expr_get_let_symbol`: the name bound by the root `let`, which must
      be a symbol. */
  function ExprGetLetSymbol(e: RecExpr): (r: Result<string, Failure>)
    ensures r.Ok? <==> |e| > 0 && Root(e).Let? && e[Root(e).binder].Symbol?
    ensures r.Ok? ==> r.value == e[Root(e).binder].sym
    ensures |e| == 0 ==> r == Err(EmptyExpr)
    ensures |e| > 0 && !Root(e).Let? ==> r == Err(NotALet)
    ensures |e| > 0 && Root(e).Let? && !e[Root(e).binder].Symbol? ==> r == Err(LetNameNotSymbol)
  {
    if |e| == 0 then Err(EmptyExpr)
    else
      assert ChildrenBelow(Root(e), |e| - 1);
      match Root(e)
      case Let(binder, _) =>
        (match e[binder]
         case Symbol(name) => Ok(name)
         case _ => Err(LetNameNotSymbol))
      case _ => Err(NotALet)
  }

  /** `expr_get_let_expr`: the expression bound by the root `let`, as the
      subterm rooted at its second child. */
  function ExprGetLetExpr(e: RecExpr): (r: Result<Tree, Failure>)
    ensures r.Ok? <==> |e| > 0 && Root(e).Let?
    ensures r.Ok? ==> Root(e).bound < |e| && r.value == Subterm(e, Root(e).bound)
    ensures |e| == 0 ==> r == Err(EmptyExpr)
    ensures |e| > 0 && !Root(e).Let? ==> r == Err(NotALet)
  {
    if |e| == 0 then Err(EmptyExpr)
    else
      assert ChildrenBelow(Root(e), |e| - 1);
      match Root(e)
      case Let(_, bound) => Ok(Subterm(e, bound))
      case _ => Err(NotALet)
  }

  /** `expr_get_gate_name`: the cell name of the root gate. */
  function ExprGetGateName(e: RecExpr): (r: Result<string, Failure>)
    ensures r.Ok? <==> |e| > 0 && Root(e).Gate?
    ensures r.Ok? ==> r.value == Root(e).cell
    ensures |e| == 0 ==> r == Err(EmptyExpr)
    ensures |e| > 0 && !Root(e).Gate? ==> r == Err(NotAGate)
  {
    if |e| == 0 then Err(EmptyExpr)
    else
      match Root(e)
      case Gate(cell, _) => Ok(cell)
      case _ => Err(NotAGate)
  }

  /** The failure raised when a pin of this kind is not named by a symbol. */
  function UnnamedPinFailure(kind: PinKind): Failure
  {
    match kind
    case InputPin => InputNameNotSymbol
    case OutputPin => OutputNameNotSymbol
  }

  /** The loop shared by `expr_get_gate_input_names` and
      `expr_get_gate_output_name`: visit the pins in order, skip those of the
      other kind, push the symbol naming each pin of this kind, and panic on
      the first one whose name is not a symbol. */
  method CollectPinNames(e: RecExpr, pins: seq<Id>, kind: PinKind) returns (r: Result<seq<string>, Failure>)
    requires forall k | 0 <= k < |pins| :: pins[k] < |e|
    ensures r.Ok? <==> NamedPins(e, PinsOf(e, pins, kind))
    ensures r.Err? ==> r == Err(UnnamedPinFailure(kind))
    ensures r.Ok? ==> NamesOfPins(e, PinsOf(e, pins, kind), r.value)
  {
    var names: seq<string> := [];
    for j := 0 to |pins|
      invariant NamedPins(e, PinsOf(e, pins[..j], kind))
      invariant NamesOfPins(e, PinsOf(e, pins[..j], kind), names)
    {
      if IsPin(e[pins[j]], kind) {
        var nameId := PinName(e, pins[j]);
        if !e[nameId].Symbol? {
          UnnamedPinAt(e, pins, j, kind);
          return Err(UnnamedPinFailure(kind));
        }
        NameStep(e, pins, j, kind, names);
        names := names + [e[nameId].sym];
      } else {
        SkipStep(e, pins, j, kind, names);
      }
    }
    assert pins[..|pins|] == pins;
    return Ok(names);
  }

  /** `expr_get_gate_input_names`: the symbol naming each `Input` pin of the
      root gate, in pin order; any other pin is skipped. */
  method ExprGetGateInputNames(e: RecExpr) returns (r: Result<seq<string>, Failure>)
    ensures |e| == 0 ==> r == Err(EmptyExpr)
    ensures |e| > 0 && !Root(e).Gate? ==> r == Err(NotAGate)
    ensures |e| > 0 && Root(e).Gate? ==>
              var ins := PinsOf(e, GatePins(e), InputPin);
              && (r.Ok? <==> NamedPins(e, ins))
              && (r.Err? ==> r == Err(InputNameNotSymbol))
              && (r.Ok? ==> NamesOfPins(e, ins, r.value))
  {
    if |e| == 0 {
      return Err(EmptyExpr);
    }
    if !e[|e| - 1].Gate? {
      return Err(NotAGate);
    }
    r := CollectPinNames(e, GatePins(e), InputPin);
  }

  /** `expr_get_gate_input_exprs`: the expression wired to each `Input` pin
      of the root gate, in pin order, as the subterm rooted at that child. */
  method ExprGetGateInputExprs(e: RecExpr) returns (r: Result<seq<Tree>, Failure>)
    ensures |e| == 0 ==> r == Err(EmptyExpr)
    ensures |e| > 0 && !Root(e).Gate? ==> r == Err(NotAGate)
    ensures r.Ok? <==> |e| > 0 && Root(e).Gate?
    ensures r.Ok? ==> ExprsOfPins(e, PinsOf(e, GatePins(e), InputPin), r.value)
  {
    if |e| == 0 {
      return Err(EmptyExpr);
    }
    if !e[|e| - 1].Gate? {
      return Err(NotAGate);
    }
    var pins := GatePins(e);
    var exprs: seq<Tree> := [];
    for j := 0 to |pins|
      invariant ExprsOfPins(e, PinsOf(e, pins[..j], InputPin), exprs)
    {
      PinsOfSnoc(e, pins, j, InputPin);
      if e[pins[j]].Input? {
        exprs := exprs + [Subterm(e, PinExpr(e, pins[j]))];
      }
    }
    assert pins[..|pins|] == pins;
    return Ok(exprs);
  }

  /** `expr_get_gate_output_name`: the symbol naming the first `Output` pin of
      the root gate.  Every `Output` pin is inspected first, so a later pin
      whose name is not a symbol still fails the call. */
  method ExprGetGateOutputName(e: RecExpr) returns (r: Result<string, Failure>)
    ensures |e| == 0 ==> r == Err(EmptyExpr)
    ensures |e| > 0 && !Root(e).Gate? ==> r == Err(NotAGate)
    ensures |e| > 0 && Root(e).Gate? ==>
              var outs := PinsOf(e, GatePins(e), OutputPin);
              && (!NamedPins(e, outs) ==> r == Err(OutputNameNotSymbol))
              && (NamedPins(e, outs) && outs == [] ==> r == Err(NoOutputPin))
              && (NamedPins(e, outs) && outs != [] ==> r == Ok(e[PinName(e, outs[0])].sym))
  {
    if |e| == 0 {
      return Err(EmptyExpr);
    }
    if !e[|e| - 1].Gate? {
      return Err(NotAGate);
    }
    var names := CollectPinNames(e, GatePins(e), OutputPin);
    if names.Err? {
      return Err(names.error);
    }
    if |names.value| == 0 {
      return Err(NoOutputPin);
    }
    return Ok(names.value[0]);
  }

  /** `expr_is_symbol`: whether the root is a symbol. */
  function ExprIsSymbol(e: RecExpr): (r: Result<bool, Failure>)
    ensures r.Err? <==> |e| == 0
    ensures r.Err? ==> r.error == EmptyExpr
    ensures r.Ok? ==> (r.value <==> Root(e).Symbol?)
  {
    if |e| == 0 then Err(EmptyExpr) else Ok(Root(e).Symbol?)
  }

  /** `expr_get_symbol`: the name of the root symbol. */
  function ExprGetSymbol(e: RecExpr): (r: Result<string, Failure>)
    ensures r.Ok? <==> |e| > 0 && Root(e).Symbol?
    ensures r.Ok? ==> r.value == Root(e).sym
    ensures |e| == 0 ==> r == Err(EmptyExpr)
    ensures |e| > 0 && !Root(e).Symbol? ==> r == Err(NotASymbol)
  {
    if |e| == 0 then Err(EmptyExpr)
    else
      match Root(e)
      case Symbol(name) => Ok(name)
      case _ => Err(NotASymbol)
  }

  /** The queries see only the tree an expression denotes: two expressions
      that unfold to the same tree get the same answer from each of them.
      So a statement handed out by `expr_get_module_body`, modelled as a
      tree, is queried the same whatever vector holds it. */
  lemma QueriesSeeOnlyTheTree(e1: RecExpr, e2: RecExpr)
    requires |e1| > 0 && |e2| > 0 && Subterm(e1, |e1| - 1) == Subterm(e2, |e2| - 1)
    ensures ExprGetLetSymbol(e1) == ExprGetLetSymbol(e2)
    ensures ExprGetLetExpr(e1) == ExprGetLetExpr(e2)
    ensures ExprGetGateName(e1) == ExprGetGateName(e2)
    ensures ExprIsSymbol(e1) == ExprIsSymbol(e2)
    ensures ExprGetSymbol(e1) == ExprGetSymbol(e2)
  {
    var r1, r2 := Root(e1), Root(e2);
    assert SameOp(r1, Subterm(e1, |e1| - 1).node) && SameOp(r2, Subterm(e2, |e2| - 1).node);
    if r1.Let? {
      LetChildrenAgree(e1, e2);
    }
  }

  /** Two let roots that unfold to the same tree bind the same name tree
      to the same expression tree. */
  lemma LetChildrenAgree(e1: RecExpr, e2: RecExpr)
    requires |e1| > 0 && |e2| > 0 && Subterm(e1, |e1| - 1) == Subterm(e2, |e2| - 1)
    requires Root(e1).Let?
    ensures Root(e2).Let?
    ensures Root(e1).binder < |e1| && Root(e2).binder < |e2|
    ensures Root(e1).bound < |e1| && Root(e2).bound < |e2|
    ensures Subterm(e1, Root(e1).binder) == Subterm(e2, Root(e2).binder)
    ensures Subterm(e1, Root(e1).bound) == Subterm(e2, Root(e2).bound)
  {
    SubtermChildren(e1, |e1| - 1);
    SubtermChildren(e2, |e2| - 1);
    assert Children(Root(e1)) == [Root(e1).binder, Root(e1).bound];
    assert Children(Root(e2)) == [Root(e2).binder, Root(e2).bound];
  }

  /** `expr_is_symbol` answers true exactly when `expr_get_symbol` succeeds,
      and both fail alike on an empty expression. */
  lemma IsSymbolAgreesWithGetSymbol(e: RecExpr)
    ensures ExprIsSymbol(e) == Ok(true) <==> ExprGetSymbol(e).Ok?
    ensures ExprIsSymbol(e) == Ok(false) <==> ExprGetSymbol(e) == Err(NotASymbol)
    ensures ExprIsSymbol(e).Err? <==> ExprGetSymbol(e) == Err(EmptyExpr)
  {
  }
}
