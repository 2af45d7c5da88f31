/**
 * Code generation: the `build` protocol of `ScoreConstant`, `ScoreHolder` and
 * `Op` (entry.js:12-24, 67-84, 134-195). Every build appends lines to one
 * shared output list and draws scratch-register names from one counter; `Gen`
 * says what a build appends, where the counter ends and what descriptor it
 * returns, and `Emitter` is the imperative builder proved to follow it.
 */
module CodeGen {
  import opened Results
  import opened JsNumbers
  import opened JsStrings
  import opened Nodes

  /**
   * The object a build returns: the location text `o` ("<name> <objective>"),
   * the literal `v` (constants only), `clean` and `useSet`.
   */
  datatype Desc = Desc(o: string, v: Option<int>, clean: bool, useSet: bool)

  /** What one build does: the lines it appends, the counter after it, and its result. */
  datatype Emitted<T> = Emitted(lines: seq<string>, next: nat, res: Result<T>)

  /** `${this.name} ${this.objective}` of a constant whose name is `"#" + value`. */
  function ConstLocation(v: int, cfg: Config): string {
    "#" + Text(v) + " " + cfg.constObjective
  }

  function ConstDesc(v: int, cfg: Config): Desc {
    Desc(ConstLocation(v, cfg), Some(v), true, true)
  }

  function HolderDesc(h: Node): Desc
    requires h.Holder?
  {
    Desc(h.name + " " + h.objective, None, h.clean, false)
  }

  /** The location a scratch register named by counter value `t` denotes. */
  function TempLocation(t: nat, cfg: Config): string {
    Text(t) + " " + cfg.tempObjective
  }

  /** A value in a template literal: `undefined` when absent. */
  function ValueText(v: Option<int>): string {
    match v
    case Some(x) => Text(x)
    case None => "undefined"
  }

  /** The deferred block that defines a constant register (entry.js:15). */
  function LoadLine(v: int, cfg: Config): string {
    "load{\nscoreboard players set " + ConstLocation(v, cfg) + " " + Text(v) + "\n}"
  }

  /** The procedure call of a macro holder (entry.js:80-82). */
  function MacroLine(m: Macro, name: string, objective: string, argLocations: seq<string>): string {
    "macro " + m.name + " " + name + " " + objective + " " + Join(" ", argLocations)
  }

  /** The copy into a fresh scratch register (entry.js:148-152). */
  function CopyLine(to: string, from: Desc): string {
    if from.useSet then "scoreboard players set " + to + " " + ValueText(from.v)
    else "scoreboard players operation " + to + " = " + from.o
  }

  function StepLine(verb: string, o: string, magnitude: nat): string {
    "scoreboard players " + verb + " " + o + " " + Text(magnitude)
  }

  function OperationLine(o: string, op: string, rightLocation: string): string {
    "scoreboard players operation " + o + " " + Transform(op) + " " + rightLocation
  }

  /**
   * `canBeOptimize()`: only a constant right operand is ever optimised, and
   * only under one of `optimizableOps`, which `OptimizableOps` characterises.
   */
  predicate CanBeOptimize(right: Node, op: string)
    ensures CanBeOptimize(right, op) ==> IsConst(right)
  {
    IsConst(right) && op in OPTIMIZABLE_OPS
  }

  /**
   * The verb and magnitude of the optimised path (entry.js:158-177), or None
   * when `use` stays null.
   */
  function OptStep(op: string, v: int): (r: Option<(string, nat)>)
    ensures r.None? <==> v == 0 && op != "="
    ensures r.Some? ==> r.value.1 == Abs(v) && r.value.0 in {"add", "remove", "set"}
    ensures r.Some? ==> (r.value.0 == "set" <==> op == "=")
  {
    var base := if op == "-=" || op == "-" then "remove" else if op == "=" then "set" else "add";
    var inverse := if op == "-=" || op == "-" then "add" else if op == "=" then "set" else "remove";
    if v < 0 then Some((inverse, -v))
    else if v > 0 then Some((base, v))
    else if op == "=" then Some(("set", 0))
    else None
  }

  /** The left descriptor after scratch promotion, the lines it queues, the loads it forces, and the counter. */
  datatype Promotion = Promotion(left: Desc, queued: seq<string>, loads: seq<string>, next: nat)

  /** Lines 146-156 of `Op.build`. */
  function Promote(left: Desc, l: Node, op: string, cfg: Config, sid: nat): (p: Promotion)
    ensures p.next == sid + 1 <==> left.clean && '=' !in op
    ensures p.next == sid + 1 ==> !p.left.clean && p.left.o == TempLocation(sid, cfg)
    ensures p.next != sid + 1 ==> p.next == sid && p.left == left
    ensures |p.queued| + |p.loads| <= 1
  {
    if left.clean && '=' !in op then
      var t := Desc(TempLocation(sid, cfg), None, false, false);
      Promotion(t, [CopyLine(t.o, left)], [], sid + 1)
    else if l.Constant? then
      Promotion(left, [], [LoadLine(l.value, cfg)], sid)
    else
      Promotion(left, [], [], sid)
  }

  /**
   * What `n.build(arr, temp, write)` appends to `arr`, where the counter behind
   * `temp` ends, and what it returns. On an error the lines are those appended
   * before the throw.
   */
  function Gen(n: Node, write: bool, cfg: Config, sid: nat): (g: Emitted<Desc>)
    ensures g.next >= sid
    decreases n
  {
    match n
    case Constant(v) =>
      Emitted(if write then [LoadLine(v, cfg)] else [], sid, Ok(ConstDesc(v, cfg)))
    case Folded(v) =>
      Emitted([], sid, Ok(ConstDesc(v, cfg)))
    case Holder(name, objective, macro, clean) =>
      if macro.None? then Emitted([], sid, Ok(HolderDesc(n)))
      else
        var a := GenArgs(macro.value.args, cfg, sid);
        if a.res.Err? then Emitted(a.lines, a.next, Err(a.res.error))
        else Emitted(a.lines + [MacroLine(macro.value, name, objective, a.res.value)], a.next, Ok(HolderDesc(n)))
    case Operation(l, r, op) =>
      var gl := Gen(l, false, cfg, sid);
      if gl.res.Err? then gl
      else
        var p := Promote(gl.res.value, l, op, cfg, gl.next);
        var t := if CanBeOptimize(r, op) then OptimizedTail(l, p, op, r.value)
                 else GeneralTail(p, op, Gen(r, true, cfg, p.next));
        Emitted(gl.lines + p.loads + t.lines, t.next, t.res)
  }

  /** The optimised path of `Op.build` after promotion (entry.js:157-182 and 193-194). */
  function OptimizedTail(l: Node, p: Promotion, op: string, v: int): (t: Emitted<Desc>)
    ensures t.next == p.next
    ensures OptStep(op, v).Some? ==>
      t.res == Ok(p.left) && |t.lines| == |p.queued| + 1 && t.lines[..|p.queued|] == p.queued
    ensures OptStep(op, v).None? && l.Holder? ==> t.lines == []
  {
    match OptStep(op, v)
    case Some((verb, m)) =>
      Emitted(p.queued + [StepLine(verb, p.left.o, m)], p.next, Ok(p.left))
    case None =>
      if l.Holder? then
        // `return this.left.build()`: with no output list a macro holder throws
        if l.macro.Some? then Emitted([], p.next, Err(TypeError))
        else Emitted([], p.next, Ok(HolderDesc(l)))
      else Emitted(p.queued, p.next, Ok(p.left))
  }

  /** The general path of `Op.build` once the right operand is built as `gr` (entry.js:183-194). */
  function GeneralTail(p: Promotion, op: string, gr: Emitted<Desc>): (t: Emitted<Desc>)
    ensures t.next == gr.next
    ensures gr.res.Err? ==> t == gr
    ensures gr.res.Ok? ==>
      && t.res == Ok(p.left)
      && |gr.lines| + |p.queued| <= |t.lines| <= |gr.lines| + |p.queued| + 1
      && t.lines[..|gr.lines|] == gr.lines
  {
    if gr.res.Err? then gr
    else
      var ro := gr.res.value.o;
      var own := if op != "=" || ro != p.left.o then [OperationLine(p.left.o, op, ro)] else [];
      Emitted(gr.lines + p.queued + own, gr.next, Ok(p.left))
  }

  /** `this.macro.args.map((_) => _.build(arr, temp, true))`, reduced to the locations `.o`. */
  function GenArgs(args: seq<Node>, cfg: Config, sid: nat): (g: Emitted<seq<string>>)
    ensures g.next >= sid
    ensures g.res.Ok? ==> |g.res.value| == |args|
    decreases args
  {
    if args == [] then Emitted([], sid, Ok([]))
    else
      var g := Gen(args[0], true, cfg, sid);
      if g.res.Err? then Emitted(g.lines, g.next, Err(g.res.error))
      else
        var rest := GenArgs(args[1..], cfg, g.next);
        Emitted(g.lines + rest.lines, rest.next,
                if rest.res.Err? then rest.res else Ok([g.res.value.o] + rest.res.value))
  }

  lemma AppendAssoc(a: seq<string>, b: seq<string>, c: seq<string>, d: seq<string>)
    ensures a + b + c + d == a + (b + c + d)
  {
  }

  /** Puts lines and locations produced so far in front of what the remaining arguments produce. */
  function Prepend(lines: seq<string>, locations: seq<string>, e: Emitted<seq<string>>): Emitted<seq<string>> {
    Emitted(lines + e.lines, e.next, if e.res.Err? then e.res else Ok(locations + e.res.value))
  }

  lemma PrependNothing(args: seq<Node>, cfg: Config, sid: nat)
    ensures GenArgs(args, cfg, sid) == Prepend([], [], GenArgs(args[0..], cfg, sid))
  {
    assert args[0..] == args;
    var all := GenArgs(args, cfg, sid);
    assert [] + all.lines == all.lines;
    assert all.res.Ok? ==> [] + all.res.value == all.res.value;
  }

  lemma AppendThree(a: seq<string>, b: seq<string>, c: seq<string>)
    ensures a + b + c == a + (b + c)
  {
  }

  /** One more argument built: its lines and location move to the front. */
  lemma PrependStep(done: seq<string>, locations: seq<string>, args: seq<Node>, i: nat, cfg: Config, sid: nat)
    requires i < |args|
    ensures var g := Gen(args[i], true, cfg, sid);
      var p := Prepend(done, locations, GenArgs(args[i..], cfg, sid));
      if g.res.Err? then p == Emitted(done + g.lines, g.next, Err(g.res.error))
      else p == Prepend(done + g.lines, locations + [g.res.value.o], GenArgs(args[i + 1..], cfg, g.next))
  {
    assert args[i..][0] == args[i] && args[i..][1..] == args[i + 1..];
    var g := Gen(args[i], true, cfg, sid);
    GenArgsCons(args[i..], cfg, sid);
    if g.res.Ok? {
      var rest := GenArgs(args[i + 1..], cfg, g.next);
      AppendThree(done, g.lines, rest.lines);
      if rest.res.Ok? {
        AppendThree(locations, [g.res.value.o], rest.res.value);
      }
    }
  }

  lemma GenArgsCons(args: seq<Node>, cfg: Config, sid: nat)
    requires args != []
    ensures var g := Gen(args[0], true, cfg, sid);
      var rest := GenArgs(args[1..], cfg, g.next);
      GenArgs(args, cfg, sid) ==
        if g.res.Err? then Emitted(g.lines, g.next, Err(g.res.error))
        else Emitted(g.lines + rest.lines, rest.next, if rest.res.Err? then rest.res else Ok([g.res.value.o] + rest.res.value))
  {
  }

  /**
   * The output list `arr` and the counter `sid` behind `temp()` that one
   * compilation's builds share.
   */
  class Emitter {
    var out: seq<string>
    var sid: nat

    constructor ()
      ensures out == [] && sid == 0
    {
      out := [];
      sid := 0;
    }

    /** `temp()`, that is `sid++`. */
    method Temp() returns (t: nat)
      modifies this
      ensures t == old(sid) && sid == old(sid) + 1 && out == old(out)
    {
      t := sid;
      sid := sid + 1;
    }

    method Build(n: Node, write: bool, cfg: Config) returns (res: Result<Desc>)
      modifies this
      ensures var g := Gen(n, write, cfg, old(sid));
        out == old(out) + g.lines && sid == g.next && res == g.res
      decreases n, 1
    {
      match n
      case Constant(v) =>
        if write {
          out := out + [LoadLine(v, cfg)];
        }
        res := Ok(ConstDesc(v, cfg));
      case Folded(v) =>
        res := Ok(ConstDesc(v, cfg));
      case Holder(name, objective, macro, clean) =>
        if macro.Some? {
          var locations := BuildArgs(macro.value.args, cfg);
          if locations.Err? {
            return Err(locations.error);
          }
          out := out + [MacroLine(macro.value, name, objective, locations.value)];
        }
        res := Ok(HolderDesc(n));
      case Operation(l, r, op) =>
        res := BuildOperation(n, cfg);
    }

    /** `Op.build` of a node that did not fold (entry.js:143-194). */
    method BuildOperation(n: Node, cfg: Config) returns (res: Result<Desc>)
      requires n.Operation?
      modifies this
      ensures var g := Gen(n, false, cfg, old(sid));
        out == old(out) + g.lines && sid == g.next && res == g.res
      decreases n, 0
    {
      var l, r, op := n.left, n.right, n.op;
      ghost var start, sid0 := out, sid;
      ghost var gl := Gen(l, false, cfg, sid0);
      var built := Build(l, false, cfg);
      if built.Err? {
        return built;
      }
      var p := PromoteLeft(built.value, l, op, cfg);
      ghost var afterPromotion := out;
      assert afterPromotion == start + gl.lines + p.loads;
      ghost var t := if CanBeOptimize(r, op) then OptimizedTail(l, p, op, r.value)
                     else GeneralTail(p, op, Gen(r, true, cfg, p.next));
      assert Gen(n, false, cfg, sid0) == Emitted(gl.lines + p.loads + t.lines, t.next, t.res);
      if CanBeOptimize(r, op) {
        res := FinishOptimized(l, p, op, r.value);
      } else {
        res := FinishGeneral(r, p, op, cfg);
      }
      AppendAssoc(start, gl.lines, p.loads, t.lines);
    }

    /** The optimised path (entry.js:157-182, 193-194). */
    method FinishOptimized(l: Node, p: Promotion, op: string, v: int) returns (res: Result<Desc>)
      requires sid == p.next
      modifies this
      ensures var t := OptimizedTail(l, p, op, v);
        out == old(out) + t.lines && sid == t.next && res == t.res
    {
      var my := p.queued;
      var step := OptStep(op, v);
      if step.Some? {
        my := my + [StepLine(step.value.0, p.left.o, step.value.1)];
      } else if l.Holder? {
        if l.macro.Some? {
          return Err(TypeError);
        }
        return Ok(HolderDesc(l));
      }
      out := out + my;
      res := Ok(p.left);
    }

    /** The general path (entry.js:183-194). */
    method FinishGeneral(r: Node, p: Promotion, op: string, cfg: Config) returns (res: Result<Desc>)
      requires sid == p.next
      modifies this
      ensures var t := GeneralTail(p, op, Gen(r, true, cfg, old(sid)));
        out == old(out) + t.lines && sid == t.next && res == t.res
      decreases r, 3
    {
      ghost var start := out;
      ghost var gr := Gen(r, true, cfg, sid);
      var my := p.queued;
      var right := Build(r, true, cfg);
      if right.Err? {
        return right;
      }
      if op != "=" || right.value.o != p.left.o {
        my := my + [OperationLine(p.left.o, op, right.value.o)];
      }
      assert GeneralTail(p, op, gr) == Emitted(gr.lines + my, gr.next, Ok(p.left));
      AppendThree(start, gr.lines, my);
      out := out + my;
      res := Ok(p.left);
    }

    /** Scratch promotion of the left operand (entry.js:146-156). */
    method PromoteLeft(left: Desc, l: Node, op: string, cfg: Config) returns (p: Promotion)
      modifies this
      ensures p == Promote(left, l, op, cfg, old(sid))
      ensures out == old(out) + p.loads && sid == p.next
      decreases l, 2
    {
      if left.clean && '=' !in op {
        var t := Temp();
        var promoted := Desc(TempLocation(t, cfg), None, false, false);
        p := Promotion(promoted, [CopyLine(promoted.o, left)], [], sid);
      } else if l.Constant? {
        var _ := Build(l, true, cfg);
        p := Promotion(left, [], [LoadLine(l.value, cfg)], sid);
      } else {
        p := Promotion(left, [], [], sid);
      }
    }

    /** The argument builds of `getMacro` (entry.js:78), in order. */
    method BuildArgs(args: seq<Node>, cfg: Config) returns (res: Result<seq<string>>)
      modifies this
      ensures var g := GenArgs(args, cfg, old(sid));
        out == old(out) + g.lines && sid == g.next && res == g.res
      decreases args
    {
      ghost var out0, sid0 := out, sid;
      ghost var done: seq<string> := [];
      var locations: seq<string> := [];
      var i := 0;
      PrependNothing(args, cfg, sid0);
      while i < |args|
        invariant 0 <= i <= |args|
        invariant out == out0 + done
        invariant GenArgs(args, cfg, sid0) == Prepend(done, locations, GenArgs(args[i..], cfg, sid))
      {
        ghost var before := sid;
        ghost var g := Gen(args[i], true, cfg, before);
        var d := Build(args[i], true, cfg);
        assert out == out0 + done + g.lines;
        AppendThree(out0, done, g.lines);
        PrependStep(done, locations, args, i, cfg, before);
        if d.Err? {
          return Err(d.error);
        }
        done := done + g.lines;
        locations := locations + [d.value.o];
        i := i + 1;
      }
      assert args[i..] == [];
      assert done + [] == done && locations + [] == locations;
      assert GenArgs(args, cfg, sid0) == Emitted(done, sid, Ok(locations));
      res := Ok(locations);
    }
  }
}
