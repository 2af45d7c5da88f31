/** Properties of whole compilations: what `parse` returns for a few forms of expression. */
module BridgeProperties {
  import opened Results
  import opened JsNumbers
  import opened JsStrings
  import opened Nodes
  import opened CodeGen
  import opened CodeGenProperties
  import opened Tokens
  import opened Bridge


  /** The parts of `<name> <objective> <op> ...` where the first two form a holder and `op` is punctuation. */
  lemma HolderThenOperator(x: string, obj: string, op: string, rest: seq<string>)
    requires !IsPunct(x) && !IsPunct(obj) && IsPunct(op) && rest != []
    ensures Pairs([x, obj, op] + rest) == [Operand(NewHolder(x, obj)), Atom(op)] + Pairs(rest)
  {
    var s := [x, obj, op] + rest;
    assert s[2..] == [op] + rest;
    assert s[2..][1..] == rest;
    assert |s[2..]| >= 2 && s[2..][1] == rest[0];
  }

  /** Numbering `[holder, op, operand]` gives the text `$$0 <op> $$1` and a two-entry lookup. */
  lemma NumberThree(h: Node, op: string, n: Node)
    ensures var r := NumberParts([Operand(h), Atom(op), Operand(n)]);
      && r.mapped == ["$$0", op, "$$1"]
      && r.lookup == map["$$0" := h, "$$1" := n]
  {
    var p1 := [Operand(h)];
    var p2 := [Operand(h), Atom(op)];
    var p3 := [Operand(h), Atom(op), Operand(n)];
    assert p1[..0] == [];
    assert p2[..1] == p1;
    assert p3[..2] == p2;
    assert Placeholder(0) == "$$0" && Placeholder(1) == "$$1" by {
      assert NatText(0) == "0" && NatText(1) == "1";
    }
    assert NumberParts(p1) == Numbered(["$$0"], map["$$0" := h], 1);
    assert NumberParts(p2) == Numbered(["$$0", op], map["$$0" := h], 1);
  }

  lemma JoinThree(a: string, b: string, c: string)
    ensures Join(" ", [a, b, c]) == a + " " + b + " " + c
  {
    assert [a, b, c][1..] == [b, c];
    assert [b, c][1..] == [c];
    assert Join(" ", [b, c]) == b + " " + c;
    assert a + " " + (b + " " + c) == a + " " + b + " " + c;
  }

  /** `x obj <op> n`, with `op` punctuation, is fixed into a holder, the operator and the constant `n`. */
  lemma FixedHolderOpNumber(x: string, obj: string, op: string, n: nat)
    requires IsSplitAtom(x) && IsSplitAtom(obj) && !IsPunct(x) && !IsPunct(obj)
    requires IsSplitAtom(op) && IsPunct(op)
    ensures AllSplitAtoms([x, obj, op, NatText(n)])
    ensures Fixed([x, obj, op, NatText(n)]) == [Operand(NewHolder(x, obj)), Atom(op), Operand(Constant(n))]
  {
    NatTextIsNumber(n);
    var t := NatText(n);
    assert [x, obj, op, t] == [x, obj, op] + [t];
    HolderThenOperator(x, obj, op, [t]);
    assert Trailing([x, obj, op, t]) == [Operand(NewConstant(DecimalValue(t)))];
  }

  /** What `x obj <op> n` prepares is what its fixed parts prepare. */
  lemma PrepareHolderOpNumber(x: string, obj: string, op: string, n: nat)
    requires IsSplitAtom(x) && IsSplitAtom(obj) && !IsPunct(x) && !IsPunct(obj)
    requires IsSplitAtom(op) && IsPunct(op)
    ensures AllSplitAtoms([x, obj, op, NatText(n)])
    ensures Prepare([x, obj, op, NatText(n)]) == PrepareFixed([Operand(NewHolder(x, obj)), Atom(op), Operand(Constant(n))])
  {
    FixedHolderOpNumber(x, obj, op, n);
  }

  /** A fixed assignment `$$0 = $$1`: the simplifier gets `$$1`, and the target is marked unclean. */
  lemma PrepareAssignment(h: Node, n: Node)
    ensures PrepareFixed([Operand(h), Atom("="), Operand(n)]) == Prepared("$$1", map["$$0" := Unclean(h), "$$1" := n], true)
  {
    NumberThree(h, "=", n);
    JoinThree("$$0", "=", "$$1");
    AssignmentStripped(["$$1"]);
    assert ["$$0", "="] + ["$$1"] == ["$$0", "=", "$$1"];
    assert map["$$0" := h, "$$1" := n]["$$0" := Unclean(h)] == map["$$0" := Unclean(h), "$$1" := n];
  }

  /** A fixed `$$0 <op> $$1` whose operator does not start with `=` is handed to the simplifier whole. */
  lemma PrepareOperation(h: Node, op: string, n: Node)
    requires op != [] && op[0] != '='
    ensures PrepareFixed([Operand(h), Atom(op), Operand(n)]) == Prepared("$$0 " + op + " $$1", map["$$0" := h, "$$1" := n], false)
  {
    NumberThree(h, op, n);
    JoinThree("$$0", op, "$$1");
    var eq := "$$0 " + op + " $$1";
    assert "$$0" + " " + op + " " + "$$1" == eq;
    assert eq[4] == op[0];
    assert !StartsWith(eq, ASSIGN_PREFIX) by {
      if |ASSIGN_PREFIX| <= |eq| {
        assert eq[..5][4] == eq[4];
      }
    }
  }

  /** Once the simplifier's tree is known, `parse` is the bridge-and-build step on what was prepared. */
  lemma ParseThroughFinish(parts: seq<string>, cfg: Config, simplify: string -> Option<MathNode>, pr: Prepared, t: MathNode)
    requires AllSplitAtoms(parts) && Prepare(parts) == pr && simplify(pr.text) == Some(t)
    ensures ParseSpec(parts, cfg, simplify) == Finish(t, pr, cfg)
  {
  }

  /** Bridging and building `$$0 = $$1` when `$$1` is the constant `n`. */
  lemma FinishAssignConstant(h: Node, n: nat, cfg: Config)
    requires h.Holder? && h.macro.None?
    ensures Finish(SymbolNode("$$1"), Prepared("$$1", map["$$0" := Unclean(h), "$$1" := Constant(n)], true), cfg)
         == Ok([Header(cfg), StepLine("set", h.name + " " + h.objective, n)])
  {
    var h' := Unclean(h);
    var lookup := map["$$0" := h', "$$1" := Constant(n)];
    assert Iterate(SymbolNode("$$1"), lookup, cfg, 0) == Ok(Bridged(Constant(n), 0));
    assert MakeOp(h', Constant(n), "=") == Ok(Operation(h', Constant(n), "="));
    AssignConstantSets(h', Constant(n), false, cfg, 0);
    var line := StepLine("set", h.name + " " + h.objective, n);
    assert Gen(Operation(h', Constant(n), "="), false, cfg, 0).lines == [line];
    assert [Header(cfg)] + [line] == [Header(cfg), line];
  }

  /**
   * `x obj = n` for a natural `n`: one `set` of the holder to `n` after the
   * header, with no scratch register and no constant load.
   */
  lemma AssignConstantEndToEnd(x: string, obj: string, n: nat, cfg: Config, simplify: string -> Option<MathNode>)
    requires IsSplitAtom(x) && IsSplitAtom(obj) && !IsPunct(x) && !IsPunct(obj)
    requires simplify("$$1") == Some(SymbolNode("$$1"))
    ensures AllSplitAtoms([x, obj, "=", NatText(n)])
    ensures ParseSpec([x, obj, "=", NatText(n)], cfg, simplify)
         == Ok([Header(cfg), "scoreboard players set " + x + " " + obj + " " + NatText(n)])
  {
    var parts := [x, obj, "=", NatText(n)];
    assert IsSplitAtom("=");
    PrepareHolderOpNumber(x, obj, "=", n);
    var h := NewHolder(x, obj);
    PrepareAssignment(h, Constant(n));
    var pr := Prepared("$$1", map["$$0" := Unclean(h), "$$1" := Constant(n)], true);
    assert Prepare(parts) == pr;
    ParseThroughFinish(parts, cfg, simplify, pr, SymbolNode("$$1"));
    FinishAssignConstant(h, n, cfg);
    SetLineText(x, obj, n);
  }


  /** The `set` line of a holder, with the literal parts of its text run together. */
  lemma SetLineText(x: string, obj: string, n: nat)
    ensures StepLine("set", x + " " + obj, n) == "scoreboard players set " + x + " " + obj + " " + NatText(n)
  {
    var pre := "scoreboard players ";
    assert StepLine("set", x + " " + obj, n) == pre + "set" + " " + (x + " " + obj) + " " + NatText(n);
    assert pre + "set" + " " == "scoreboard players set ";
  }

  /** `x obj = x obj`: the self-assignment compiles to the header alone. */
  lemma SelfAssignmentEndToEnd(x: string, obj: string, cfg: Config, simplify: string -> Option<MathNode>)
    requires IsSplitAtom(x) && IsSplitAtom(obj) && !IsPunct(x) && !IsPunct(obj) && !IsNumber(obj)
    requires simplify("$$1") == Some(SymbolNode("$$1"))
    ensures AllSplitAtoms([x, obj, "=", x, obj])
    ensures ParseSpec([x, obj, "=", x, obj], cfg, simplify) == Ok([Header(cfg)])
  {
    var parts := [x, obj, "=", x, obj];
    assert IsSplitAtom("=");
    assert parts == [x, obj, "="] + [x, obj];
    HolderThenOperator(x, obj, "=", [x, obj]);
    var h := NewHolder(x, obj);
    assert [x, obj][2..] == [];
    assert Pairs([x, obj]) == [Operand(h)];
    assert Trailing(parts) == [];
    assert Fixed(parts) == [Operand(h), Atom("="), Operand(h)];
    PrepareAssignment(h, h);
    var pr := Prepared("$$1", map["$$0" := Unclean(h), "$$1" := h], true);
    ParseThroughFinish(parts, cfg, simplify, pr, SymbolNode("$$1"));
    FinishSelfAssignment(h, cfg);
  }

  /** Bridging and building `$$0 = $$1` when both stand for the same holder. */
  lemma FinishSelfAssignment(h: Node, cfg: Config)
    requires h.Holder? && h.macro.None?
    ensures Finish(SymbolNode("$$1"), Prepared("$$1", map["$$0" := Unclean(h), "$$1" := h], true), cfg)
         == Ok([Header(cfg)])
  {
    var h' := Unclean(h);
    var lookup := map["$$0" := h', "$$1" := h];
    assert Iterate(SymbolNode("$$1"), lookup, cfg, 0) == Ok(Bridged(h, 0));
    assert MakeOp(h', h, "=") == Ok(Operation(h', h, "="));
    SelfAssignmentElided(h', h, false, cfg, 0);
    assert [Header(cfg)] + [] == [Header(cfg)];
  }

  /** Bridging and building `$$0 + $$1` when `$$1` is the constant `n`. */
  lemma FinishAddConstant(h: Node, n: nat, cfg: Config)
    requires h.Holder? && h.clean && h.macro.None? && n > 0
    ensures var tree := OperatorNode("+", [SymbolNode("$$0"), SymbolNode("$$1")]);
      Finish(tree, Prepared("$$0 + $$1", map["$$0" := h, "$$1" := Constant(n)], false), cfg)
      == Ok([Header(cfg),
             "scoreboard players operation 0 " + cfg.tempObjective + " = " + h.name + " " + h.objective,
             "scoreboard players add 0 " + cfg.tempObjective + " " + NatText(n)])
  {
    var tree := OperatorNode("+", [SymbolNode("$$0"), SymbolNode("$$1")]);
    var lookup := map["$$0" := h, "$$1" := Constant(n)];
    var root := Operation(h, Constant(n), "+");
    assert MakeOp(h, Constant(n), "+") == Ok(root);
    assert Iterate(tree, lookup, cfg, 0) == Ok(Bridged(root, 0));
    AddConstantLines(h, n, cfg);
    var lines := Gen(root, false, cfg, 0).lines;
    assert [Header(cfg)] + lines == [Header(cfg), lines[0], lines[1]];
  }

  /**
   * `x obj + n` for a positive `n`, which the simplifier keeps as it is: the
   * holder is copied into scratch register `0` and `n` is added there; the
   * holder itself is not changed.
   */
  lemma AddConstantEndToEnd(x: string, obj: string, n: nat, cfg: Config, simplify: string -> Option<MathNode>)
    requires IsSplitAtom(x) && IsSplitAtom(obj) && !IsPunct(x) && !IsPunct(obj) && n > 0
    requires simplify("$$0 + $$1") == Some(OperatorNode("+", [SymbolNode("$$0"), SymbolNode("$$1")]))
    ensures AllSplitAtoms([x, obj, "+", NatText(n)])
    ensures ParseSpec([x, obj, "+", NatText(n)], cfg, simplify)
         == Ok([Header(cfg),
                "scoreboard players operation 0 " + cfg.tempObjective + " = " + x + " " + obj,
                "scoreboard players add 0 " + cfg.tempObjective + " " + NatText(n)])
  {
    var parts := [x, obj, "+", NatText(n)];
    assert IsSplitAtom("+");
    PrepareHolderOpNumber(x, obj, "+", n);
    var h := NewHolder(x, obj);
    PrepareOperation(h, "+", Constant(n));
    PlusText();
    ParseAddConstant(parts, h, n, cfg, simplify);
  }


  /** The text handed to the simplifier for `$$0 + $$1`, run together. */
  lemma PlusText()
    ensures "$$0 " + "+" + " $$1" == "$$0 + $$1"
  {
  }

  /** `ParseSpec` of any program that prepares to `$$0 + $$1` over a clean holder and `n`. */
  lemma ParseAddConstant(parts: seq<string>, h: Node, n: nat, cfg: Config, simplify: string -> Option<MathNode>)
    requires h.Holder? && h.clean && h.macro.None? && n > 0
    requires AllSplitAtoms(parts)
    requires Prepare(parts) == Prepared("$$0 + $$1", map["$$0" := h, "$$1" := Constant(n)], false)
    requires simplify("$$0 + $$1") == Some(OperatorNode("+", [SymbolNode("$$0"), SymbolNode("$$1")]))
    ensures ParseSpec(parts, cfg, simplify)
         == Ok([Header(cfg),
                "scoreboard players operation 0 " + cfg.tempObjective + " = " + h.name + " " + h.objective,
                "scoreboard players add 0 " + cfg.tempObjective + " " + NatText(n)])
  {
    var pr := Prepared("$$0 + $$1", map["$$0" := h, "$$1" := Constant(n)], false);
    var tree := OperatorNode("+", [SymbolNode("$$0"), SymbolNode("$$1")]);
    ParseThroughFinish(parts, cfg, simplify, pr, tree);
    FinishAddConstant(h, n, cfg);
  }

  /** The lines of `holder + n` built with a fresh counter. */
  lemma AddConstantLines(h: Node, n: nat, cfg: Config)
    requires h.Holder? && h.clean && h.macro.None? && n > 0
    ensures Gen(Operation(h, Constant(n), "+"), false, cfg, 0).lines
         == ["scoreboard players operation 0 " + cfg.tempObjective + " = " + h.name + " " + h.objective,
             "scoreboard players add 0 " + cfg.tempObjective + " " + Text(n)]
    ensures Gen(Operation(h, Constant(n), "+"), false, cfg, 0).res.Ok?
  {
    var temp := TempLocation(0, cfg);
    AddConstantShape(h, n, cfg);
    CopyToScratchZero(h, cfg);
    AddToScratchZero(n, cfg);
  }

  lemma AddConstantShape(h: Node, n: nat, cfg: Config)
    requires h.Holder? && h.clean && h.macro.None? && n > 0
    ensures var temp := TempLocation(0, cfg);
      var g := Gen(Operation(h, Constant(n), "+"), false, cfg, 0);
      g.lines == [CopyLine(temp, HolderDesc(h)), StepLine("add", temp, n)] && g.res.Ok?
  {
    var temp := TempLocation(0, cfg);
    assert CanBeOptimize(Constant(n), "+");
    OptimizedShape(h, Constant(n), "+", false, cfg, 0);
    assert Gen(h, false, cfg, 0) == Emitted([], 0, Ok(HolderDesc(h)));
    var copy := CopyLine(temp, HolderDesc(h));
    var p := Promotion(Desc(temp, None, false, false), [copy], [], 1);
    assert Promote(HolderDesc(h), h, "+", cfg, 0) == p;
    assert OptStep("+", n) == Some(("add", n));
    assert OptimizedTail(h, p, "+", n).lines == [copy, StepLine("add", temp, n)];
  }

  lemma CopyToScratchZero(h: Node, cfg: Config)
    requires h.Holder? && h.macro.None?
    ensures CopyLine(TempLocation(0, cfg), HolderDesc(h))
         == "scoreboard players operation 0 " + cfg.tempObjective + " = " + h.name + " " + h.objective
  {
    var temp := TempLocation(0, cfg);
    assert Text(0) == "0";
    var pre := "scoreboard players operation ";
    assert CopyLine(temp, HolderDesc(h)) == pre + temp + " = " + (h.name + " " + h.objective);
    assert pre + temp == pre + "0 " + cfg.tempObjective;
    assert pre + "0 " == "scoreboard players operation 0 ";
  }

  lemma AddToScratchZero(n: nat, cfg: Config)
    ensures StepLine("add", TempLocation(0, cfg), n)
         == "scoreboard players add 0 " + cfg.tempObjective + " " + Text(n)
  {
    assert Text(0) == "0";
    var obj, tail := cfg.tempObjective, " " + Text(n);
    var a := "scoreboard players add ";
    assert StepLine("add", TempLocation(0, cfg), n) == a + ("0" + " " + obj) + tail;
    assert a + ("0" + " " + obj) == a + "0" + " " + obj;
    assert a + "0" + " " == "scoreboard players add 0 ";
  }


  /**
   * An expression that is not an assignment and that the simplifier turns into
   * numbers, operators and placeholders of constants only compiles to the
   * header alone: the folded value is never written anywhere.
   */
  lemma LiteralProgramEmitsOnlyHeader(parts: seq<string>, cfg: Config, simplify: string -> Option<MathNode>)
    requires AllSplitAtoms(parts) && !Prepare(parts).assign
    requires simplify(Prepare(parts).text).Some? && Literal(simplify(Prepare(parts).text).value, Prepare(parts).lookup)
    ensures ParseSpec(parts, cfg, simplify).Ok? ==> ParseSpec(parts, cfg, simplify) == Ok([Header(cfg)])
  {
    var pr := Prepare(parts);
    var t := simplify(pr.text).value;
    LiteralTreesFold(t, pr.lookup, cfg, 0);
    var b := Iterate(t, pr.lookup, cfg, 0);
    ParseThroughFinish(parts, cfg, simplify, pr, t);
    if b.Ok? {
      assert Gen(b.value.node, false, cfg, 0).lines == [];
      assert [Header(cfg)] + [] == [Header(cfg)];
    }
  }

  /** The operators that are punctuation and fold: `<` and `>` are neither. */
  predicate FoldingPunct(op: string) {
    op == "+" || op == "-" || op == "*" || op == "/" || op == "%"
  }

  /** `a <op> b` for naturals: the first number stays a plain atom and the trailing one becomes a constant. */
  lemma FixedNumberOpNumber(a: nat, op: string, b: nat)
    requires FoldingPunct(op)
    ensures AllSplitAtoms([NatText(a), op, NatText(b)])
    ensures Fixed([NatText(a), op, NatText(b)]) == [Atom(NatText(a)), Atom(op), Operand(Constant(b))]
  {
    NatTextIsNumber(a);
    NatTextIsNumber(b);
    assert IsSplitAtom(op) && IsPunct(op);
    AtomThenOperator(NatText(a), op, NatText(b));
    assert Trailing([NatText(a), op, NatText(b)]) == [Operand(Constant(b))];
  }

  /** The loop of `fixup` passes an atom followed by punctuation through, and stops before the last atom. */
  lemma AtomThenOperator(x: string, op: string, y: string)
    requires IsPunct(op)
    ensures Pairs([x, op, y]) == [Atom(x), Atom(op)]
  {
    var parts := [x, op, y];
    assert parts[1..] == [op, y] && [op, y][1..] == [y];
    assert Pairs([op, y]) == [Atom(op)] + Pairs([y]);
    assert Pairs(parts) == [Atom(x)] + Pairs([op, y]);
  }

  /** Numbering an atom, an operator and one operand gives the text `<atom> <op> $$0`. */
  lemma NumberAtomOpOperand(x: string, op: string, n: Node)
    ensures var r := NumberParts([Atom(x), Atom(op), Operand(n)]);
      r.mapped == [x, op, "$$0"] && r.lookup == map["$$0" := n]
  {
    var p3 := [Atom(x), Atom(op), Operand(n)];
    assert p3[..2] == [Atom(x), Atom(op)] && p3[..2][..1] == [Atom(x)] && p3[..2][..1][..0] == [];
    assert Placeholder(0) == "$$0";
    assert NumberParts([Atom(x)]) == Numbered([x], map[], 0);
    assert NumberParts(p3[..2]) == Numbered([x, op], map[], 0);
  }

  /** A fixed `<atom> <op> $$0` whose atom does not start with `$` is handed to the simplifier whole. */
  lemma PrepareAtomOpOperand(x: string, op: string, n: Node)
    requires x != [] && x[0] != '$'
    ensures PrepareFixed([Atom(x), Atom(op), Operand(n)]) == Prepared(x + " " + op + " $$0", map["$$0" := n], false)
  {
    NumberAtomOpOperand(x, op, n);
    JoinThree(x, op, "$$0");
    var eq := x + " " + op + " " + "$$0";
    assert eq[0] == x[0];
    assert !StartsWith(eq, ASSIGN_PREFIX) by {
      if |ASSIGN_PREFIX| <= |eq| {
        assert eq[..5][0] == eq[0];
      }
    }
    assert eq == x + " " + op + " $$0";
  }

  /**
   * `a <op> b` for naturals `a` and `b`: the simplifier is handed `a <op> $$0`,
   * which is no assignment, and `$$0` stands for the constant `b`.
   */
  lemma PrepareNumberOpNumber(a: nat, op: string, b: nat)
    requires FoldingPunct(op)
    ensures AllSplitAtoms([NatText(a), op, NatText(b)])
    ensures Prepare([NatText(a), op, NatText(b)])
         == Prepared(NatText(a) + " " + op + " $$0", map["$$0" := Constant(b)], false)
  {
    FixedNumberOpNumber(a, op, b);
    assert IsDigit(NatText(a)[0]);
    PrepareAtomOpOperand(NatText(a), op, Constant(b));
  }

  /** Bridging `a <op> $$0` with `$$0` standing for `b` folds the operation to `eval(a, op, b)`. */
  lemma IterateNumberOpConstant(a: nat, op: string, b: nat, cfg: Config)
    requires FoldingPunct(op)
    ensures Eval(a, op, b).Ok?
    ensures Iterate(OperatorNode(op, [ConstantNode(a as real), SymbolNode("$$0")]), map["$$0" := Constant(b)], cfg, 0)
         == Ok(Bridged(Folded(Eval(a, op, b).value), 0))
  {
    var lookup := map["$$0" := Constant(b)];
    var args := [ConstantNode(a as real), SymbolNode("$$0")];
    assert NewConstant(a as real) == Constant(a);
    assert Iterate(args[0], lookup, cfg, 0) == Ok(Bridged(Constant(a), 0));
    assert Iterate(args[1], lookup, cfg, 0) == Ok(Bridged(Constant(b), 0));
    assert MakeOp(Constant(a), Constant(b), op) == Ok(Folded(Eval(a, op, b).value));
  }

  /**
   * `a <op> b` for naturals, when the simplifier keeps `a <op> $$0` as it is:
   * the operation folds while it is bridged, to `eval` of the two numbers,
   * and the output is the header alone.
   */
  lemma LiteralPairEndToEnd(a: nat, op: string, b: nat, cfg: Config, simplify: string -> Option<MathNode>)
    requires FoldingPunct(op)
    requires simplify(NatText(a) + " " + op + " $$0") == Some(OperatorNode(op, [ConstantNode(a as real), SymbolNode("$$0")]))
    ensures AllSplitAtoms([NatText(a), op, NatText(b)])
    ensures Iterate(OperatorNode(op, [ConstantNode(a as real), SymbolNode("$$0")]), map["$$0" := Constant(b)], cfg, 0)
         == Ok(Bridged(Folded(Eval(a, op, b).value), 0))
    ensures ParseSpec([NatText(a), op, NatText(b)], cfg, simplify) == Ok([Header(cfg)])
  {
    var parts := [NatText(a), op, NatText(b)];
    PrepareNumberOpNumber(a, op, b);
    var pr := Prepared(NatText(a) + " " + op + " $$0", map["$$0" := Constant(b)], false);
    var t := OperatorNode(op, [ConstantNode(a as real), SymbolNode("$$0")]);
    IterateNumberOpConstant(a, op, b, cfg);
    ParseThroughFinish(parts, cfg, simplify, pr, t);
    assert Gen(Folded(Eval(a, op, b).value), false, cfg, 0).lines == [];
    assert [Header(cfg)] + [] == [Header(cfg)];
  }
}
