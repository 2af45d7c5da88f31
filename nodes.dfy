/**
 * The operand model and the operation node of entry.js: `ScoreConstant`,
 * `ScoreHolder` and `Op`, with constant folding (`ScoreConstant.eval`) and the
 * `Op` constructor's operand normalisation.
 */
module Nodes {
  import opened Results
  import opened JsNumbers

  /** `config.tempScoreboard` and `config.constScoreboard`. */
  datatype Config = Config(tempObjective: string, constObjective: string)

  /** The `macroopts` of a `ScoreHolder`: a procedure name and its argument operands. */
  datatype Macro = Macro(name: string, args: seq<Node>)

  /**
   * A node of the compiler's own tree. `Folded` is an `Op` whose operands were
   * both constant: `Object.assign` gave it a constant's `value`, `name`,
   * `objective` and `isConst`, but it is still an `Op`, so it is neither an
   * `instanceof ScoreConstant` nor built like one.
   */
  datatype Node =
    | Constant(value: int)
    | Holder(name: string, objective: string, macro: Option<Macro>, clean: bool)
    | Folded(value: int)
    | Operation(left: Node, right: Node, op: string)

  /** The `isConst` property. */
  predicate IsConst(n: Node) {
    n.Constant? || n.Folded?
  }

  /** `new ScoreConstant(x)`: the value is `Math.floor(x)`. */
  function NewConstant(x: real): (n: Node)
    ensures n.Constant? && n.value as real <= x < n.value as real + 1.0
  {
    Constant(x.Floor)
  }

  /** `new ScoreHolder(name, objective)`: no macro, and `clean` starts true. */
  function NewHolder(name: string, objective: string): (n: Node)
    ensures n.Holder? && n.clean && n.macro.None?
    ensures n.name == name && n.objective == objective
  {
    Holder(name, objective, None, true)
  }

  const REVERSIBLE_OPS: seq<string> := ["+", "*", "<", ">"]
  const OPTIMIZABLE_OPS: seq<string> := ["-", "+", "-=", "+=", "=", "<", ">"]
  /** The operators `ScoreConstant.eval` refuses with "invalid operation". */
  const ASSIGNING_OPS: seq<string> := ["-=", "+=", "/=", "*=", "%=", "="]

  /** `Op.transforms`. */
  const TRANSFORMS: map<string, string> :=
    map["%" := "%=", "*" := "*=", "+" := "+=", "-" := "-=", "/" := "/=",
        "<" := "<", ">" := ">", "=" := "=",
        "%=" := "%=", "*=" := "*=", "-=" := "-=", "+=" := "+=", "/=" := "/="]

  /** `Op.transforms[op]` inside a template literal: a missing key prints as "undefined". */
  function Transform(op: string): (r: string)
    ensures op in TRANSFORMS ==> r == (if op == "<" || op == ">" || '=' in op then op else op + "=")
    ensures op !in TRANSFORMS ==> r == "undefined"
  {
    if op in TRANSFORMS then TRANSFORMS[op] else "undefined"
  }

  function Min(a: int, b: int): int { if a <= b then a else b }
  function Max(a: int, b: int): int { if a >= b then a else b }

  /**
   * `ScoreConstant.eval(a, op, b).value`: the operator applied to two
   * constants, coerced by `| 0`. Division and remainder by zero produce an
   * infinity or NaN, which `| 0` turns into 0; an operator the switch does not
   * list leaves `res` null, which `| 0` also turns into 0.
   */
  function Eval(a: int, op: string, b: int): (r: Result<int>)
    ensures r.Err? <==> op in ASSIGNING_OPS
    ensures r.Err? ==> r.error == InvalidOperation
    ensures r.Ok? ==> IsInt32(r.value)
  {
    if op == "+" then Ok(ToInt32(a + b))
    else if op == "-" then Ok(ToInt32(a - b))
    else if op == "*" then Ok(ToInt32(a * b))
    else if op == "/" then Ok(if b == 0 then 0 else ToInt32(TruncDiv(a, b)))
    else if op == "<" then Ok(ToInt32(Min(a, b)))
    else if op == ">" then Ok(ToInt32(Max(a, b)))
    else if op == "%" then Ok(if b == 0 then 0 else ToInt32(TruncRem(a, b)))
    else if op in ASSIGNING_OPS then Err(InvalidOperation)
    else Ok(0)
  }

  lemma ToInt32Identity(x: int)
    requires IsInt32(x)
    ensures ToInt32(x) == x
  {
    ToInt32Unique(x, x);
  }

  /** Sums, differences and products of constants wrap modulo 2^32; a sum that fits is exact. */
  lemma EvalArithmeticWraps(a: int, op: string, b: int)
    requires op == "+" || op == "-" || op == "*"
    ensures Eval(a, op, b).Ok?
    ensures var x := if op == "+" then a + b else if op == "-" then a - b else a * b;
      (Eval(a, op, b).value - x) % TWO_32 == 0 && (IsInt32(x) ==> Eval(a, op, b).value == x)
  {
    var x := if op == "+" then a + b else if op == "-" then a - b else a * b;
    var r := ToInt32(x);
    assert Eval(a, op, b) == Ok(r);
    assert (r - x) % TWO_32 == 0 by {
      assert (x - r) % TWO_32 == 0;
      assert r - x == -(x - r);
    }
    if IsInt32(x) {
      ToInt32Identity(x);
    }
  }

  /**
   * On 32-bit operands `/` folds to the quotient truncated toward zero (only
   * -2^31 / -1 wraps, to -2^31) and `%` to the remainder with the sign of the
   * dividend; a zero divisor gives 0.
   */
  lemma EvalDivisionOnInt32(a: int, op: string, b: int)
    requires IsInt32(a) && IsInt32(b) && (op == "/" || op == "%")
    ensures b == 0 ==> Eval(a, op, b) == Ok(0)
    ensures b != 0 && op == "%" ==> Eval(a, op, b) == Ok(TruncRem(a, b))
    ensures b != 0 && op == "/" && !(a == -TWO_31 && b == -1) ==> Eval(a, op, b) == Ok(TruncDiv(a, b))
    ensures op == "/" && a == -TWO_31 && b == -1 ==> Eval(a, op, b) == Ok(-TWO_31)
  {
    if b != 0 && op == "/" {
      var q := TruncDiv(a, b);
      if a == -TWO_31 && b == -1 {
        assert q == TWO_31;
        ToInt32Unique(q, -TWO_31);
      } else {
        TruncDivFits(a, b);
        ToInt32Identity(q);
      }
    } else if b != 0 {
      ToInt32Identity(TruncRem(a, b));
    }
  }

  lemma TruncDivFits(a: int, b: int)
    requires IsInt32(a) && IsInt32(b) && b != 0 && !(a == -TWO_31 && b == -1)
    ensures IsInt32(TruncDiv(a, b))
  {
    var x, y := Abs(a), Abs(b);
    assert Abs(TruncDiv(a, b)) == x / y;
    if y == 1 {
      assert x / y == x;
    } else {
      QuotientHalves(x, y);
    }
  }

  lemma QuotientHalves(x: nat, y: nat)
    requires y >= 2
    ensures 2 * (x / y) <= x
  {
    var m := x / y;
    assert m * y <= x;
    AtLeastTwice(m, y);
  }

  lemma {:induction false} AtLeastTwice(m: nat, y: nat)
    requires y >= 2
    ensures m * y >= 2 * m
  {
    if m > 0 {
      AtLeastTwice(m - 1, y);
      assert m * y == (m - 1) * y + y;
    }
  }

  /** On 32-bit operands `<` folds to the minimum and `>` to the maximum. */
  lemma EvalMinMaxOnInt32(a: int, b: int)
    requires IsInt32(a) && IsInt32(b)
    ensures Eval(a, "<", b) == Ok(Min(a, b)) && Eval(a, ">", b) == Ok(Max(a, b))
  {
    ToInt32Identity(Min(a, b));
    ToInt32Identity(Max(a, b));
  }

  /** Folding a reversible operator does not depend on the operand order. */
  lemma EvalCommutes(a: int, op: string, b: int)
    requires op in REVERSIBLE_OPS
    ensures Eval(a, op, b) == Eval(b, op, a)
  {
    assert a * b == b * a;
  }

  /**
   * The `Op` constructor (entry.js:87-99). For a reversible operator a
   * constant left operand is swapped to the right; if both operands are then
   * constant the node folds into a constant whose value is the operator applied
   * in source order, and folding an assignment operator fails.
   */
  function MakeOp(left: Node, right: Node, op: string): (r: Result<Node>)
    ensures r.Err? <==> IsConst(left) && IsConst(right) && op in ASSIGNING_OPS
    ensures r.Ok? && r.value.Folded? <==> r.Ok? && IsConst(left) && IsConst(right)
    ensures r.Ok? && r.value.Folded? ==> Eval(left.value, op, right.value) == Ok(r.value.value)
    ensures r.Ok? && !r.value.Folded? ==> r.value.Operation? && r.value.op == op
    ensures r.Ok? && r.value.Operation? ==>
      && !(IsConst(r.value.left) && IsConst(r.value.right))
      && (op in REVERSIBLE_OPS ==> !IsConst(r.value.left))
      && (if op in REVERSIBLE_OPS && IsConst(left)
          then r.value.left == right && r.value.right == left
          else r.value.left == left && r.value.right == right)
  {
    var swap := op in REVERSIBLE_OPS && IsConst(left);
    var l := if swap then right else left;
    var rt := if swap then left else right;
    if IsConst(l) && IsConst(rt) then
      assert swap ==> Eval(l.value, op, rt.value) == Eval(left.value, op, right.value) by {
        if swap { EvalCommutes(left.value, op, right.value); }
      }
      match Eval(l.value, op, rt.value)
      case Ok(v) => Ok(Folded(v))
      case Err(e) => Err(e)
    else
      Ok(Operation(l, rt, op))
  }

  /**
   * The normalisation makes the operand order of a reversible operator
   * irrelevant as soon as one operand is constant: both orders construct the
   * same node.
   */
  lemma MakeOpCommutes(a: Node, b: Node, op: string)
    requires op in REVERSIBLE_OPS && (IsConst(a) || IsConst(b))
    ensures MakeOp(a, b, op) == MakeOp(b, a, op)
  {
    if IsConst(a) && IsConst(b) {
      EvalCommutes(a.value, op, b.value);
    }
  }
}
