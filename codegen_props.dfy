/** What the builds of entry.js promise, stated over `Gen`. */
module CodeGenProperties {
  import opened Results
  import opened JsNumbers
  import opened Nodes
  import opened CodeGen

  /**
   * The optimisable operators are exactly those whose compound form adds,
   * subtracts, sets, or takes a minimum or maximum.
   */
  lemma OptimizableOps(op: string)
    ensures op in OPTIMIZABLE_OPS <==> Transform(op) in {"+=", "-=", "=", "<", ">"}
  {
    if Transform(op) in {"+=", "-=", "=", "<", ">"} {
      assert op in TRANSFORMS;
    }
  }

  /**
   * `ScoreConstant.build` appends exactly one line, the load block, when and
   * only when `write` is set; that block sets the very register the returned
   * descriptor names to the constant's value.
   */
  lemma ConstantBuild(v: int, write: bool, cfg: Config, sid: nat)
    ensures var g := Gen(Constant(v), write, cfg, sid);
      && g.next == sid
      && g.res == Ok(Desc(ConstLocation(v, cfg), Some(v), true, true))
      && |g.lines| == (if write then 1 else 0)
      && (write ==> g.lines[0] == "load{\nscoreboard players set " + ConstLocation(v, cfg) + " " + Text(v) + "\n}")
  {
  }

  /**
   * An `Op` whose operands are both constants folds at construction, and its
   * build then appends nothing whatever `write` says: it only returns the
   * descriptor of the folded constant `eval(left, op, right)`.
   */
  lemma FoldedBuildsNothing(left: Node, right: Node, op: string, write: bool, cfg: Config, sid: nat)
    requires IsConst(left) && IsConst(right) && op !in ASSIGNING_OPS
    ensures MakeOp(left, right, op).Ok?
    ensures var v := Eval(left.value, op, right.value).value;
      Gen(MakeOp(left, right, op).value, write, cfg, sid) == Emitted([], sid, Ok(ConstDesc(v, cfg)))
  {
  }

  /**
   * The effect of `scoreboard players <verb> <holder> m` on a register holding
   * `x`, for the three verbs the optimised path uses.
   */
  function Apply(verb: string, x: int, m: nat): int {
    if verb == "add" then x + m else if verb == "remove" then x - m else m
  }

  /**
   * The optimised path picks the verb and magnitude so that the register
   * changes by exactly the constant for `+ += - -=` whatever its sign, and a
   * zero delta emits nothing. As written, `=` stores the magnitude of a
   * negative constant, and `<` and `>` add the constant instead of taking the
   * minimum or maximum.
   */
  lemma OptStepMeaning(op: string, v: int, x: int)
    requires op in OPTIMIZABLE_OPS
    ensures OptStep(op, v).None? <==> v == 0 && op != "="
    ensures OptStep(op, v).Some? ==>
      var (verb, m) := OptStep(op, v).value;
      && m == Abs(v)
      && Apply(verb, x, m) == (if op == "-" || op == "-=" then x - v else if op == "=" then Abs(v) else x + v)
  {
  }

  /** Subtracting a negative constant builds exactly what adding its magnitude builds. */
  lemma SubtractNegativeIsAdd(l: Node, c: Node, d: Node, compound: bool, write: bool, cfg: Config, sid: nat)
    requires IsConst(c) && IsConst(d) && c.value == -d.value
    ensures var (minus, plus) := if compound then ("-=", "+=") else ("-", "+");
      Gen(Operation(l, c, minus), write, cfg, sid) == Gen(Operation(l, d, plus), write, cfg, sid)
  {
    if compound {
      NegatedBuild(l, c, d, "-=", "+=", write, cfg, sid);
    } else {
      NegatedBuild(l, c, d, "-", "+", write, cfg, sid);
    }
  }

  lemma NegatedBuild(l: Node, c: Node, d: Node, minus: string, plus: string, write: bool, cfg: Config, sid: nat)
    requires IsConst(c) && IsConst(d) && c.value == -d.value
    requires (minus, plus) in {("-=", "+="), ("-", "+")}
    ensures Gen(Operation(l, c, minus), write, cfg, sid) == Gen(Operation(l, d, plus), write, cfg, sid)
  {
    NegatedStep(minus, plus, c.value);
    OptimizedShape(l, c, minus, write, cfg, sid);
    OptimizedShape(l, d, plus, write, cfg, sid);
    var gl := Gen(l, false, cfg, sid);
    if gl.res.Ok? {
      var p := Promote(gl.res.value, l, minus, cfg, gl.next);
      assert p == Promote(gl.res.value, l, plus, cfg, gl.next);
      NegatedTail(l, p, minus, plus, c.value);
    }
  }

  /** Both operators are optimisable, promote alike, and pick the same step for opposite constants. */
  lemma NegatedStep(minus: string, plus: string, v: int)
    requires (minus, plus) in {("-=", "+="), ("-", "+")}
    ensures minus in OPTIMIZABLE_OPS && plus in OPTIMIZABLE_OPS
    ensures '=' in minus <==> '=' in plus
    ensures OptStep(minus, v) == OptStep(plus, -v)
  {
  }

  lemma NegatedTail(l: Node, p: Promotion, minus: string, plus: string, v: int)
    requires OptStep(minus, v) == OptStep(plus, -v)
    ensures OptimizedTail(l, p, minus, v) == OptimizedTail(l, p, plus, -v)
  {
  }

  /** `Gen` of an operation on the optimised path, in terms of its promotion. */
  lemma OptimizedShape(l: Node, r: Node, op: string, write: bool, cfg: Config, sid: nat)
    requires CanBeOptimize(r, op)
    ensures var gl := Gen(l, false, cfg, sid);
      var g := Gen(Operation(l, r, op), write, cfg, sid);
      if gl.res.Err? then g == gl
      else
        var p := Promote(gl.res.value, l, op, cfg, gl.next);
        var t := OptimizedTail(l, p, op, r.value);
        g == Emitted(gl.lines + p.loads + t.lines, t.next, t.res)
  {
  }

  /**
   * Adding, subtracting, or comparing against a zero constant on a plain
   * holder emits nothing and yields the holder's own descriptor. For a clean
   * holder and an operator without `=` a scratch name is still drawn, and the
   * copy into it is dropped with the rest of the node's queued lines.
   */
  lemma ZeroDeltaElided(h: Node, c: Node, op: string, write: bool, cfg: Config, sid: nat)
    requires h.Holder? && h.macro.None? && IsConst(c) && c.value == 0
    requires op in OPTIMIZABLE_OPS && op != "="
    ensures Gen(Operation(h, c, op), write, cfg, sid)
         == Emitted([], if h.clean && '=' !in op then sid + 1 else sid, Ok(HolderDesc(h)))
  {
    OptStepMeaning(op, 0, 0);
  }

  /** The same zero-delta return on a macro holder rebuilds it without an output list and throws. */
  lemma ZeroDeltaOnMacroThrows(h: Node, c: Node, op: string, write: bool, cfg: Config, sid: nat)
    requires h.Holder? && h.macro.Some? && IsConst(c) && c.value == 0
    requires op in OPTIMIZABLE_OPS && op != "="
    requires Gen(h, false, cfg, sid).res.Ok?
    ensures Gen(Operation(h, c, op), write, cfg, sid).res == Err(TypeError)
    ensures Gen(Operation(h, c, op), write, cfg, sid).lines == Gen(h, false, cfg, sid).lines
  {
    OptStepMeaning(op, 0, 0);
  }

  /** Assigning a holder to a holder at the same location emits nothing. */
  lemma SelfAssignmentElided(target: Node, source: Node, write: bool, cfg: Config, sid: nat)
    requires target.Holder? && target.macro.None? && source.Holder? && source.macro.None?
    requires target.name + " " + target.objective == source.name + " " + source.objective
    ensures Gen(Operation(target, source, "="), write, cfg, sid) == Emitted([], sid, Ok(HolderDesc(target)))
  {
  }

  /**
   * Assigning a constant to a plain holder emits one `set` on the holder and
   * nothing else; the value set is the constant's magnitude.
   */
  lemma AssignConstantSets(target: Node, c: Node, write: bool, cfg: Config, sid: nat)
    requires target.Holder? && target.macro.None? && IsConst(c)
    ensures Gen(Operation(target, c, "="), write, cfg, sid)
         == Emitted([StepLine("set", HolderDesc(target).o, Abs(c.value))], sid, Ok(HolderDesc(target)))
  {
  }

  /**
   * The general path: the lines of the left build come first, then the
   * forced load of a constant left operand, then the lines of the right build,
   * then the node's own queued copy and, unless it is a self-assignment, exactly
   * one `operation` line on the (possibly promoted) left location.
   */
  lemma GeneralPathOrder(l: Node, r: Node, op: string, write: bool, cfg: Config, sid: nat)
    requires !CanBeOptimize(r, op)
    requires Gen(Operation(l, r, op), write, cfg, sid).res.Ok?
    ensures var gl := Gen(l, false, cfg, sid);
      var p := Promote(gl.res.value, l, op, cfg, gl.next);
      var gr := Gen(r, true, cfg, p.next);
      var g := Gen(Operation(l, r, op), write, cfg, sid);
      && gl.res.Ok? && gr.res.Ok?
      && g.res == Ok(p.left)
      && |p.loads| <= 1 && |p.queued| <= 1
      && g.lines == gl.lines + p.loads + gr.lines + p.queued
                    + (if op == "=" && gr.res.value.o == p.left.o then []
                       else [OperationLine(p.left.o, op, gr.res.value.o)])
  {
    var gl := Gen(l, false, cfg, sid);
    var p := Promote(gl.res.value, l, op, cfg, gl.next);
    var gr := Gen(r, true, cfg, p.next);
    var ro := gr.res.value.o;
    var own := if op != "=" || ro != p.left.o then [OperationLine(p.left.o, op, ro)] else [];
    var t := GeneralTail(p, op, gr);
    assert t.lines == gr.lines + p.queued + own;
    AppendAssoc5(gl.lines, p.loads, gr.lines, p.queued, own);
  }

  lemma AppendAssoc5(a: seq<string>, b: seq<string>, c: seq<string>, d: seq<string>, e: seq<string>)
    ensures a + b + (c + d + e) == a + b + c + d + e
  {
  }

  /**
   * Scratch promotion: a clean left operand under an operator without `=`
   * takes exactly one fresh name, the counter value after the left build, and
   * the node continues with that unclean register, which it first fills with a
   * `set` of the literal or a copy of the left location.
   */
  lemma PromotionTakesOneName(l: Node, r: Node, op: string, write: bool, cfg: Config, sid: nat)
    requires Gen(l, false, cfg, sid).res.Ok?
    requires Gen(l, false, cfg, sid).res.value.clean && '=' !in op
    requires !(CanBeOptimize(r, op) && OptStep(op, r.value).None? && l.Holder?)
    requires Gen(Operation(l, r, op), write, cfg, sid).res.Ok?
    ensures var gl := Gen(l, false, cfg, sid);
      var t := TempLocation(gl.next, cfg);
      var g := Gen(Operation(l, r, op), write, cfg, sid);
      && g.res == Ok(Desc(t, None, false, false))
      && g.next == (if CanBeOptimize(r, op) then gl.next + 1 else Gen(r, true, cfg, gl.next + 1).next)
      && CopyLine(t, gl.res.value) in g.lines
      && CopyLine(t, gl.res.value) ==
           if gl.res.value.useSet then "scoreboard players set " + t + " " + ValueText(gl.res.value.v)
           else "scoreboard players operation " + t + " = " + gl.res.value.o
  {
    var gl := Gen(l, false, cfg, sid);
    var p := Promote(gl.res.value, l, op, cfg, gl.next);
    var t := TempLocation(gl.next, cfg);
    assert p.queued == [CopyLine(t, gl.res.value)];
    var g := Gen(Operation(l, r, op), write, cfg, sid);
    if CanBeOptimize(r, op) {
      var s := OptStep(op, r.value);
      if s.Some? {
        assert g.lines == gl.lines + p.loads + (p.queued + [StepLine(s.value.0, p.left.o, s.value.1)]);
        assert g.lines[|gl.lines| + |p.loads|] == CopyLine(t, gl.res.value);
      } else {
        assert g.lines == gl.lines + p.loads + p.queued;
        assert g.lines[|gl.lines| + |p.loads|] == CopyLine(t, gl.res.value);
      }
    } else {
      GeneralPathOrder(l, r, op, write, cfg, sid);
      var gr := Gen(r, true, cfg, p.next);
      assert g.lines[|gl.lines| + |p.loads| + |gr.lines|] == CopyLine(t, gl.res.value);
    }
  }

  /** The register a leaf operand denotes. */
  function LeafLocation(n: Node, cfg: Config): string
    requires !n.Operation?
  {
    match n
    case Constant(v) => ConstLocation(v, cfg)
    case Folded(v) => ConstLocation(v, cfg)
    case Holder(name, objective, _, _) => name + " " + objective
  }

  /**
   * `getMacro` yields one location per argument, in order, and a leaf
   * argument is passed as its own register.
   */
  lemma {:induction false} MacroArgumentLocations(args: seq<Node>, cfg: Config, sid: nat)
    requires GenArgs(args, cfg, sid).res.Ok?
    ensures var os := GenArgs(args, cfg, sid).res.value;
      && |os| == |args|
      && forall i :: 0 <= i < |args| && !args[i].Operation? ==> os[i] == LeafLocation(args[i], cfg)
    decreases args
  {
    if args != [] {
      var g := Gen(args[0], true, cfg, sid);
      MacroArgumentLocations(args[1..], cfg, g.next);
      var os := GenArgs(args, cfg, sid).res.value;
      forall i | 0 <= i < |args| && !args[i].Operation?
        ensures os[i] == LeafLocation(args[i], cfg)
      {
        if i > 0 {
          assert args[1..][i - 1] == args[i];
        }
      }
    }
  }

  /**
   * A macro holder appends its arguments' lines first and its one `macro`
   * line last, naming the holder and one location per argument.
   */
  lemma MacroLineLast(h: Node, write: bool, cfg: Config, sid: nat)
    requires h.Holder? && h.macro.Some?
    requires Gen(h, write, cfg, sid).res.Ok?
    ensures var a := GenArgs(h.macro.value.args, cfg, sid);
      var g := Gen(h, write, cfg, sid);
      && a.res.Ok? && |a.res.value| == |h.macro.value.args|
      && g.lines == a.lines + [MacroLine(h.macro.value, h.name, h.objective, a.res.value)]
      && g.res == Ok(HolderDesc(h))
  {
    MacroArgumentLocations(h.macro.value.args, cfg, sid);
  }

  /**
   * A constant register is defined only by a `ScoreConstant` build with
   * `write`: a folded node used as the right operand of an operator outside
   * the optimisable ones is referenced by its `#v` register but never loaded,
   * while an unfolded constant in the same place is.
   */
  lemma FoldedOperandNotLoaded(h: Node, v: int, op: string, write: bool, cfg: Config, sid: nat)
    requires h.Holder? && h.macro.None? && op !in OPTIMIZABLE_OPS
    ensures var g := Gen(Operation(h, Folded(v), op), write, cfg, sid);
      && g.res.Ok?
      && OperationLine(g.res.value.o, op, ConstLocation(v, cfg)) in g.lines
      && LoadLine(v, cfg) !in g.lines
    ensures LoadLine(v, cfg) in Gen(Operation(h, Constant(v), op), write, cfg, sid).lines
  {
    var p := Promote(HolderDesc(h), h, op, cfg, sid);
    var own := OperationLine(p.left.o, op, ConstLocation(v, cfg));
    PlainHolderGeneral(h, Folded(v), op, write, cfg, sid);
    PlainHolderGeneral(h, Constant(v), op, write, cfg, sid);
    var g := Gen(Operation(h, Folded(v), op), write, cfg, sid);
    var gc := Gen(Operation(h, Constant(v), op), write, cfg, sid);
    assert g.lines == [] + p.queued + [own] == p.queued + [own];
    assert gc.lines == [LoadLine(v, cfg)] + p.queued + [own];
    assert LoadLine(v, cfg)[0] == 'l';
    assert own[0] == 's';
    assert |p.queued| <= 1 && (p.queued != [] ==> p.queued[0][0] == 's');
  }

  /**
   * The general path on a plain holder: the right operand's lines, the
   * holder's queued copy, then one `operation` line.
   */
  lemma PlainHolderGeneral(h: Node, r: Node, op: string, write: bool, cfg: Config, sid: nat)
    requires h.Holder? && h.macro.None? && op !in OPTIMIZABLE_OPS && !r.Operation? && !r.Holder?
    ensures var p := Promote(HolderDesc(h), h, op, cfg, sid);
      var gr := Gen(r, true, cfg, p.next);
      var g := Gen(Operation(h, r, op), write, cfg, sid);
      && p.loads == [] && gr.res.Ok?
      && g.res == Ok(p.left)
      && g.lines == gr.lines + p.queued + [OperationLine(p.left.o, op, gr.res.value.o)]
  {
    assert op != "=";
    var p := Promote(HolderDesc(h), h, op, cfg, sid);
    var gr := Gen(r, true, cfg, p.next);
    assert Gen(h, false, cfg, sid) == Emitted([], sid, Ok(HolderDesc(h)));
    assert [] + [] + (gr.lines + p.queued + [OperationLine(p.left.o, op, gr.res.value.o)])
        == gr.lines + p.queued + [OperationLine(p.left.o, op, gr.res.value.o)];
  }
}
