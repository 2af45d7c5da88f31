/**
 * The driver of the compiler: `parse` (entry.js:222-285) with its bridge
 * `itterate` from the simplifier's tree to the compiler's own nodes, and the
 * `eq` handler's split-then-parse (entry.js:290-298).
 */
module Bridge {
  import opened Results
  import opened JsNumbers
  import opened JsStrings
  import opened Nodes
  import opened CodeGen
  import opened Tokens

  /**
   * The node kinds of the simplifier's tree that `itterate` tells apart; every
   * other kind is `OtherNode`. Parsing and simplifying are not modelled: they
   * are the parameter `simplify` of `Parse`.
   */
  datatype MathNode =
    | ParenthesisNode(content: MathNode)
    | OperatorNode(op: string, args: seq<MathNode>)
    | SymbolNode(name: string)
    | FunctionNode(fn: string, args: seq<MathNode>)
    | ConstantNode(value: real)
    | OtherNode(kind: string)

  /** The placeholder `"$$" + id` that stands for the `id`-th operand in the text given to the simplifier. */
  function Placeholder(id: nat): string {
    "$$" + NatText(id)
  }

  lemma PlaceholderInjective(a: nat, b: nat)
    requires Placeholder(a) == Placeholder(b)
    ensures a == b
  {
    assert NatText(a) == Placeholder(a)[2..];
    assert NatText(b) == Placeholder(b)[2..];
    NatTextInjective(a, b);
  }

  /** The operand nodes among the parts, in order. */
  function Operands(parts: seq<Part>): seq<Node> {
    if parts == [] then []
    else Operands(parts[..|parts| - 1]) + (match parts[|parts| - 1] case Atom(_) => [] case Operand(n) => [n])
  }

  /** The text pieces of the parts, the placeholder lookup, and the value of the counter `id`. */
  datatype Numbered = Numbered(mapped: seq<string>, lookup: map<string, Node>, count: nat)

  /** The `map` over `parts2` (entry.js:255-265): atoms stay, each operand is replaced by the next placeholder. */
  function NumberParts(parts: seq<Part>): (r: Numbered)
    ensures |r.mapped| == |parts|
    ensures r.count <= |parts|
  {
    if parts == [] then Numbered([], map[], 0)
    else
      var prev := NumberParts(parts[..|parts| - 1]);
      match parts[|parts| - 1]
      case Atom(t) => Numbered(prev.mapped + [t], prev.lookup, prev.count)
      case Operand(n) =>
        var key := Placeholder(prev.count);
        Numbered(prev.mapped + [key], prev.lookup[key := n], prev.count + 1)
  }


  /** The counter ends at the number of operands. */
  lemma {:induction false} PlaceholderCount(parts: seq<Part>)
    ensures NumberParts(parts).count == |Operands(parts)|
  {
    if parts != [] {
      PlaceholderCount(parts[..|parts| - 1]);
    }
  }

  /** Placeholder `k` is in the lookup and stands for the `k`-th operand. */
  lemma {:induction false} PlaceholderLookup(parts: seq<Part>)
    ensures var r := NumberParts(parts);
      forall k :: 0 <= k < |Operands(parts)| ==> Placeholder(k) in r.lookup && r.lookup[Placeholder(k)] == Operands(parts)[k]
  {
    if parts != [] {
      var init := parts[..|parts| - 1];
      PlaceholderLookup(init);
      PlaceholderCount(init);
      var prev := NumberParts(init);
      match parts[|parts| - 1]
      case Atom(_) =>
      case Operand(n) =>
        forall k | 0 <= k < prev.count
          ensures Placeholder(k) != Placeholder(prev.count)
        {
          if Placeholder(k) == Placeholder(prev.count) {
            PlaceholderInjective(k, prev.count);
          }
        }
    }
  }

  /** Every key of the lookup is one of the placeholders numbered below the counter. */
  predicate KeysArePlaceholders(r: Numbered) {
    forall key :: key in r.lookup ==> exists k :: 0 <= k < r.count && key == Placeholder(k)
  }

  /** The lookup holds nothing but the placeholders of the operands. */
  lemma {:induction false} PlaceholderKeys(parts: seq<Part>)
    ensures KeysArePlaceholders(NumberParts(parts))
  {
    if parts != [] {
      var init := parts[..|parts| - 1];
      PlaceholderKeys(init);
      var prev := NumberParts(init);
      var r := NumberParts(parts);
      forall key | key in r.lookup
        ensures exists k :: 0 <= k < r.count && key == Placeholder(k)
      {
        if key in prev.lookup {
          var k :| 0 <= k < prev.count && key == Placeholder(k);
          assert 0 <= k < r.count;
        } else {
          assert key == Placeholder(prev.count);
        }
      }
    }
  }

  /** The text that stands for a part that has `before` operands in front of it. */
  function Piece(p: Part, before: nat): string {
    match p
    case Atom(t) => t
    case Operand(_) => Placeholder(before)
  }

  /** Each piece of text is the atom itself, or the placeholder numbered by the operands before it. */
  lemma {:induction false} PlaceholderPieces(parts: seq<Part>)
    ensures var r := NumberParts(parts);
      forall i :: 0 <= i < |parts| ==> r.mapped[i] == Piece(parts[i], |Operands(parts[..i])|)
  {
    if parts != [] {
      var init := parts[..|parts| - 1];
      PlaceholderPieces(init);
      PlaceholderCount(init);
      var prev := NumberParts(init);
      var r := NumberParts(parts);
      assert r.mapped == prev.mapped + [Piece(parts[|parts| - 1], prev.count)];
      forall i | 0 <= i < |parts|
        ensures r.mapped[i] == Piece(parts[i], |Operands(parts[..i])|)
      {
        if i < |init| {
          assert init[..i] == parts[..i];
          assert r.mapped[i] == prev.mapped[i];
          assert parts[i] == init[i];
        } else {
          assert parts[..i] == init;
        }
      }
    }
  }

  /** The `map` of entry.js:255-265 with the counter `id` and the `lookup` map filled as it goes. */
  method NumberOperands(parts: seq<Part>) returns (mapped: seq<string>, lookup: map<string, Node>)
    ensures mapped == NumberParts(parts).mapped && lookup == NumberParts(parts).lookup
  {
    mapped := [];
    lookup := map[];
    var id := 0;
    for i := 0 to |parts|
      invariant NumberParts(parts[..i]) == Numbered(mapped, lookup, id)
    {
      assert parts[..i + 1][..i] == parts[..i];
      match parts[i]
      case Atom(t) =>
        mapped := mapped + [t];
      case Operand(n) =>
        var key := Placeholder(id);
        id := id + 1;
        lookup := lookup[key := n];
        mapped := mapped + [key];
    }
    assert parts[..|parts|] == parts;
  }

  /** The prefix that marks an assignment (entry.js:270). */
  const ASSIGN_PREFIX: string := "$$0 ="


  /**
   * An expression whose first two pieces are the first placeholder and `=` is
   * an assignment, and cutting six characters leaves exactly the right side.
   */
  lemma AssignmentStripped(rest: seq<string>)
    requires rest != []
    ensures var eq := Join(" ", ["$$0", "="] + rest);
      StartsWith(eq, ASSIGN_PREFIX) && Substr(eq, 6) == Join(" ", rest)
  {
    JoinCons(" ", "=", rest);
    assert (["$$0", "="] + rest)[1..] == ["="] + rest;
    JoinCons(" ", "$$0", ["="] + rest);
    var eq := Join(" ", ["$$0", "="] + rest);
    assert eq == "$$0 = " + Join(" ", rest);
  }

  /** A piece of the joined text: non-empty, free of spaces, and starting with `=` only when it is `=` itself. */
  predicate IsWord(w: string) {
    w != "" && ' ' !in w && (w[0] == '=' ==> w == "=")
  }

  predicate AllWords(m: seq<string>) {
    forall i :: 0 <= i < |m| ==> IsWord(m[i])
  }

  lemma PlaceholderIsWord(k: nat)
    ensures IsWord(Placeholder(k))
  {
    var w := Placeholder(k);
    forall j | 0 <= j < |w|
      ensures w[j] != ' '
    {
      if j >= 2 {
        assert w[j] == NatText(k)[j - 2];
      }
    }
  }

  lemma SplitAtomIsWord(t: string)
    requires IsSplitAtom(t)
    ensures IsWord(t)
  {
    assert t[0] == '=' ==> !NoSpecials(t);
  }

  /** The pieces `parse` joins for split atoms are words: split atoms themselves, or placeholders. */
  lemma PiecesAreWords(parts: seq<string>)
    requires AllSplitAtoms(parts)
    ensures AllWords(NumberParts(Fixed(parts)).mapped)
  {
    var parts2 := Fixed(parts);
    var m := NumberParts(parts2).mapped;
    PlaceholderPieces(parts2);
    FixedAtoms(parts);
    forall i | 0 <= i < |m|
      ensures IsWord(m[i])
    {
      assert parts2[i] in parts2;
      match parts2[i]
      case Atom(t) => SplitAtomIsWord(t);
      case Operand(_) => PlaceholderIsWord(|Operands(parts2[..i])|);
    }
  }

  /** Joining words: the text starts with the first word, then a space and the rest joined, if there is a rest. */
  lemma JoinFirstWord(m: seq<string>)
    requires m != []
    ensures var eq := Join(" ", m);
      && |m[0]| <= |eq| && eq[..|m[0]|] == m[0]
      && (|m| == 1 ==> eq == m[0])
      && (|m| >= 2 ==> eq[|m[0]|] == ' ' && eq[|m[0]| + 1..] == Join(" ", m[1..]))
  {
    if |m| >= 2 {
      var eq := Join(" ", m);
      assert eq == m[0] + " " + Join(" ", m[1..]);
    }
  }

  /** `$$0`, `=` and any further words join to a text that passes the prefix test, and `substr(6)` leaves the rest. */
  lemma AssignmentJoin(m: seq<string>)
    requires |m| >= 2 && m[0] == "$$0" && m[1] == "="
    ensures StartsWith(Join(" ", m), ASSIGN_PREFIX) && Substr(Join(" ", m), 6) == Join(" ", m[2..])
  {
    assert m == ["$$0", "="] + m[2..];
    if |m| == 2 {
      assert Join(" ", m) == "$$0 =";
    } else {
      AssignmentStripped(m[2..]);
    }
  }

  /**
   * A joined list of words begins with `$$0 =` exactly when its first two
   * words are `$$0` and `=`; cutting six characters then leaves the rest joined.
   */
  lemma JoinAssignment(m: seq<string>)
    requires AllWords(m)
    ensures StartsWith(Join(" ", m), ASSIGN_PREFIX) <==> |m| >= 2 && m[0] == "$$0" && m[1] == "="
    ensures |m| >= 2 && m[0] == "$$0" && m[1] == "=" ==> Substr(Join(" ", m), 6) == Join(" ", m[2..])
  {
    if |m| >= 2 && m[0] == "$$0" && m[1] == "=" {
      AssignmentJoin(m);
    }
    if StartsWith(Join(" ", m), ASSIGN_PREFIX) {
      assert m != [] && IsWord(m[0]) && (|m| >= 2 ==> IsWord(m[1]));
      AssignmentShape(m);
    }
  }

  /** The converse half of `JoinAssignment`: the words a `$$0 =` text must begin with. */
  lemma AssignmentShape(m: seq<string>)
    requires m != [] && IsWord(m[0]) && (|m| >= 2 ==> IsWord(m[1]))
    requires StartsWith(Join(" ", m), ASSIGN_PREFIX)
    ensures |m| >= 2 && m[0] == "$$0" && m[1] == "="
  {
    var eq := Join(" ", m);
    JoinFirstWord(m);
    FirstWordOfAssignment(m[0], eq);
    JoinFirstWord(m[1..]);
    SecondWordOfAssignment(m[1..][0], eq[4..]);
  }

  /** A word that opens a `$$0 =` text, followed by a space or the end, is `$$0`. */
  lemma FirstWordOfAssignment(w: string, eq: string)
    requires IsWord(w) && |w| <= |eq| && eq[..|w|] == w
    requires |w| < |eq| ==> eq[|w|] == ' '
    requires StartsWith(eq, ASSIGN_PREFIX)
    ensures w == "$$0" && |w| < |eq|
  {
    assert eq[3] == ' ';
    assert w == eq[..3];
  }

  /** A word that opens the text after `$$0 ` is `=`. */
  lemma SecondWordOfAssignment(w: string, rest: string)
    requires IsWord(w) && |w| <= |rest| && rest[..|w|] == w
    requires rest != [] && rest[0] == '='
    ensures w == "="
  {
    assert w[0] == rest[0];
  }

  /**
   * `parse` treats its text as an assignment exactly when the first two
   * pieces are `$$0` and `=`; the simplifier is then given the pieces after
   * them, and otherwise the whole text.
   */
  lemma PrepareFixedAssignment(parts2: seq<Part>)
    requires AllWords(NumberParts(parts2).mapped)
    ensures var m := NumberParts(parts2).mapped;
      var r := PrepareFixed(parts2);
      && (r.assign <==> |m| >= 2 && m[0] == "$$0" && m[1] == "=")
      && r.text == if r.assign then Join(" ", m[2..]) else Join(" ", m)
  {
    JoinAssignment(NumberParts(parts2).mapped);
  }

  /** The assignment rule of `parse` on any split atoms: no space or `=` inside a piece can fool it. */
  lemma AssignmentRecognised(parts: seq<string>)
    requires AllSplitAtoms(parts)
    ensures var m := NumberParts(Fixed(parts)).mapped;
      var r := Prepare(parts);
      && (r.assign <==> |m| >= 2 && m[0] == "$$0" && m[1] == "=")
      && r.text == if r.assign then Join(" ", m[2..]) else Join(" ", m)
  {
    PiecesAreWords(parts);
    PrepareFixedAssignment(Fixed(parts));
  }

  /** The bridge's result: the node and the value of the macro counter `mid` after it. */
  datatype Bridged = Bridged(node: Node, mid: nat)

  /**
   * `itterate` (entry.js:230-253). A symbol missing from the lookup and an
   * unknown node kind give `undefined` in the source, which always fails later
   * when it is used; an operator with fewer than two operands makes
   * `itterate` read `.type` of `undefined` and throw. Here all three fail at once.
   */
  function Iterate(t: MathNode, lookup: map<string, Node>, cfg: Config, mid: nat): (r: Result<Bridged>)
    ensures r.Ok? ==> r.value.mid >= mid
    ensures t.SymbolNode? ==> (r.Ok? <==> t.name in lookup)
    ensures t.FunctionNode? && r.Ok? ==>
      var h := r.value.node;
      h.Holder? && h.macro.Some? && h.macro.value.name == t.fn && |h.macro.value.args| == |t.args|
      && h.objective == cfg.tempObjective && h.clean
    ensures t.OtherNode? ==> r.Err?
    decreases t
  {
    match t
    case ParenthesisNode(c) => Iterate(c, lookup, cfg, mid)
    case OperatorNode(op, args) =>
      if |args| < 2 then Err(TypeError)
      else
        (match Iterate(args[0], lookup, cfg, mid)
         case Err(e) => Err(e)
         case Ok(l) =>
           match Iterate(args[1], lookup, cfg, l.mid)
           case Err(e) => Err(e)
           case Ok(r) =>
             match MakeOp(l.node, r.node, op)
             case Err(e) => Err(e)
             case Ok(n) => Ok(Bridged(n, r.mid)))
    case SymbolNode(name) =>
      if name in lookup then Ok(Bridged(lookup[name], mid)) else Err(TypeError)
    case FunctionNode(fn, args) =>
      (match IterateArgs(args, lookup, cfg, mid)
       case Err(e) => Err(e)
       case Ok((ns, m)) => Ok(Bridged(Holder("m_" + NatText(m), cfg.tempObjective, Some(Macro(fn, ns)), true), m + 1)))
    case ConstantNode(v) => Ok(Bridged(NewConstant(v), mid))
    case OtherNode(_) => Err(TypeError)
  }

  /** `node.args.map(itterate)`, threading the macro counter. */
  function IterateArgs(args: seq<MathNode>, lookup: map<string, Node>, cfg: Config, mid: nat): (r: Result<(seq<Node>, nat)>)
    ensures r.Ok? ==> |r.value.0| == |args| && r.value.1 >= mid
    decreases args
  {
    if args == [] then Ok(([], mid))
    else
      match Iterate(args[0], lookup, cfg, mid)
      case Err(e) => Err(e)
      case Ok(b) =>
        match IterateArgs(args[1..], lookup, cfg, b.mid)
        case Err(e) => Err(e)
        case Ok((ns, m)) => Ok(([b.node] + ns, m))
  }

  /** The function calls `itterate` visits. */
  function Calls(t: MathNode): nat
    decreases t
  {
    match t
    case ParenthesisNode(c) => Calls(c)
    case OperatorNode(_, args) => if |args| < 2 then 0 else Calls(args[0]) + Calls(args[1])
    case FunctionNode(_, args) => CallsIn(args) + 1
    case _ => 0
  }

  function CallsIn(args: seq<MathNode>): nat
    decreases args
  {
    if args == [] then 0 else Calls(args[0]) + CallsIn(args[1..])
  }

  /**
   * Every function call takes one macro number, so the holders `m_0`, `m_1`,
   * ... are numbered in the order their calls finish, and a call's own number
   * comes after those of the calls among its arguments.
   */
  lemma {:induction false} MacroCounter(t: MathNode, lookup: map<string, Node>, cfg: Config, mid: nat)
    ensures var b := Iterate(t, lookup, cfg, mid);
      b.Ok? ==> b.value.mid == mid + Calls(t)
    ensures t.FunctionNode? && Iterate(t, lookup, cfg, mid).Ok? ==>
      Iterate(t, lookup, cfg, mid).value.node.name == "m_" + NatText(mid + Calls(t) - 1)
    decreases t
  {
    match t
    case ParenthesisNode(c) => MacroCounter(c, lookup, cfg, mid);
    case OperatorNode(op, args) =>
      if |args| >= 2 {
        MacroCounter(args[0], lookup, cfg, mid);
        var l := Iterate(args[0], lookup, cfg, mid);
        if l.Ok? {
          MacroCounter(args[1], lookup, cfg, l.value.mid);
        }
      }
    case FunctionNode(fn, args) => MacroCounterArgs(args, lookup, cfg, mid);
    case SymbolNode(_) =>
    case ConstantNode(_) =>
    case OtherNode(_) =>
  }

  lemma {:induction false} MacroCounterArgs(args: seq<MathNode>, lookup: map<string, Node>, cfg: Config, mid: nat)
    ensures var b := IterateArgs(args, lookup, cfg, mid);
      b.Ok? ==> |b.value.0| == |args| && b.value.1 == mid + CallsIn(args)
    decreases args
  {
    if args != [] {
      MacroCounter(args[0], lookup, cfg, mid);
      var b := Iterate(args[0], lookup, cfg, mid);
      if b.Ok? {
        MacroCounterArgs(args[1..], lookup, cfg, b.value.mid);
      }
    }
  }

  /**
   * A tree of numbers and operators whose symbols all stand for constants in
   * the lookup: no holder, no function call.
   */
  predicate Literal(t: MathNode, lookup: map<string, Node>)
    decreases t
  {
    match t
    case ParenthesisNode(c) => Literal(c, lookup)
    case OperatorNode(_, args) => |args| >= 2 && Literal(args[0], lookup) && Literal(args[1], lookup)
    case SymbolNode(name) => name in lookup && IsConst(lookup[name])
    case ConstantNode(_) => true
    case _ => false
  }

  /**
   * A literal tree folds to one constant while it is bridged, with the value
   * `eval` gives, so building it appends nothing.
   */
  lemma {:induction false} LiteralTreesFold(t: MathNode, lookup: map<string, Node>, cfg: Config, mid: nat)
    requires Literal(t, lookup)
    ensures var b := Iterate(t, lookup, cfg, mid);
      b.Ok? ==> IsConst(b.value.node) && b.value.mid == mid
    decreases t
  {
    match t
    case ParenthesisNode(c) => LiteralTreesFold(c, lookup, cfg, mid);
    case OperatorNode(op, args) =>
      LiteralTreesFold(args[0], lookup, cfg, mid);
      var l := Iterate(args[0], lookup, cfg, mid);
      if l.Ok? {
        LiteralTreesFold(args[1], lookup, cfg, mid);
      }
    case SymbolNode(_) =>
    case ConstantNode(_) =>
  }

  /** The first line of every output: the `load` block that creates both objectives (entry.js:282). */
  function Header(cfg: Config): (r: string)
    ensures StartsWith(r, "load{\n") && r[|r| - 2..] == "\n}"
  {
    "load{\nscoreboard objectives add " + cfg.tempObjective + " dummy\nscoreboard objectives add "
      + cfg.constObjective + " dummy\n}"
  }

  /** `equals.clean = false` on the lookup's own entry. */
  function Unclean(n: Node): (r: Node)
    ensures r.Holder? ==> !r.clean
    ensures n.Holder? ==> r == n.(clean := false)
    ensures !n.Holder? ==> r == n
  {
    if n.Holder? then n.(clean := false) else n
  }

  /** What `parse` has before it calls the simplifier: the text, the lookup, and whether it is an assignment. */
  datatype Prepared = Prepared(text: string, lookup: map<string, Node>, assign: bool)

  /**
   * Lines 226-273 of `parse`. The target of an assignment is the same object
   * as the lookup's entry, so marking it unclean is seen by every use of the
   * first placeholder in the right side; the model marks the entry before
   * bridging, which gives the same tree.
   */
  function Prepare(parts: seq<string>): (r: Prepared)
    requires AllSplitAtoms(parts)
    ensures forall key :: key in r.lookup ==> exists k :: 0 <= k <= |parts| && key == Placeholder(k)
  {
    PrepareFixed(Fixed(parts))
  }

  /** Lines 255-273 of `parse`, on the parts `fixup` returned. */
  function PrepareFixed(parts2: seq<Part>): (r: Prepared)
    ensures r.lookup.Keys == NumberParts(parts2).lookup.Keys
    ensures forall key :: key in r.lookup && key != "$$0" ==> r.lookup[key] == NumberParts(parts2).lookup[key]
    ensures "$$0" in r.lookup ==>
      r.lookup["$$0"] == if r.assign then Unclean(NumberParts(parts2).lookup["$$0"]) else NumberParts(parts2).lookup["$$0"]
    ensures forall key :: key in r.lookup ==> exists k :: 0 <= k < NumberParts(parts2).count && key == Placeholder(k)
  {
    PlaceholderKeys(parts2);
    var nb := NumberParts(parts2);
    var eq := Join(" ", nb.mapped);
    if StartsWith(eq, ASSIGN_PREFIX) then
      var lookup := if "$$0" in nb.lookup then nb.lookup["$$0" := Unclean(nb.lookup["$$0"])] else nb.lookup;
      Prepared(Substr(eq, 6), lookup, true)
    else Prepared(eq, nb.lookup, false)
  }

  /**
   * Lines 275-284: bridge the simplified tree, wrap an assignment, build, and
   * put the header first. An assignment builds `Op(target, tree, "=")` with
   * the lookup's `$$0` as the target; anything else builds the tree itself.
   */
  function Finish(t: MathNode, pr: Prepared, cfg: Config): (r: Result<seq<string>>)
    ensures r.Ok? ==> |r.value| >= 1 && r.value[0] == Header(cfg)
    ensures r.Ok? ==> Iterate(t, pr.lookup, cfg, 0).Ok?
    ensures r.Ok? && !pr.assign ==>
      r.value[1..] == Gen(Iterate(t, pr.lookup, cfg, 0).value.node, false, cfg, 0).lines
    ensures r.Ok? && pr.assign ==>
      && "$$0" in pr.lookup
      && r.value[1..] == Gen(Operation(pr.lookup["$$0"], Iterate(t, pr.lookup, cfg, 0).value.node, "="), false, cfg, 0).lines
    ensures pr.assign && "$$0" !in pr.lookup ==> r.Err?
  {
    match Iterate(t, pr.lookup, cfg, 0)
    case Err(e) => Err(e)
    case Ok(b) =>
      var top := if !pr.assign then Ok(b.node)
                 else if "$$0" in pr.lookup then MakeOp(pr.lookup["$$0"], b.node, "=")
                 else Err(TypeError);
      match top
      case Err(e) => Err(e)
      case Ok(root) => Output(root, cfg)
  }

  /** `tree.build(res, () => sid++)` with a fresh counter, and the header before the lines. */
  function Output(root: Node, cfg: Config): (r: Result<seq<string>>)
    ensures r.Ok? <==> Gen(root, false, cfg, 0).res.Ok?
    ensures r.Ok? ==> |r.value| >= 1 && r.value[0] == Header(cfg) && r.value[1..] == Gen(root, false, cfg, 0).lines
  {
    var g := Gen(root, false, cfg, 0);
    if g.res.Err? then Err(g.res.error) else Ok([Header(cfg)] + g.lines)
  }

  /** What `parse(parts)` returns when the simplifier turns a text into a tree, or fails, as `simplify` says. */
  function ParseSpec(parts: seq<string>, cfg: Config, simplify: string -> Option<MathNode>): (r: Result<seq<string>>)
    requires AllSplitAtoms(parts)
    ensures r.Ok? ==> |r.value| >= 1 && r.value[0] == Header(cfg)
  {
    var pr := Prepare(parts);
    match simplify(pr.text)
    case None => Err(SimplifierFailure)
    case Some(t) => Finish(t, pr, cfg)
  }

  /** Lines 226-273 of `parse`, step by step. */
  method PrepareParts(parts: seq<string>) returns (pr: Prepared)
    requires AllSplitAtoms(parts)
    ensures pr == Prepare(parts)
  {
    var parts2 := Fixup(parts);
    pr := NumberAndStrip(parts2);
  }

  /** Lines 255-273 of `parse`: number the operands, join, and strip an assignment's target. */
  method NumberAndStrip(parts2: seq<Part>) returns (pr: Prepared)
    ensures pr == PrepareFixed(parts2)
  {
    var mapped, lookup := NumberOperands(parts2);
    var eq := Join(" ", mapped);
    var assign := false;
    if StartsWith(eq, ASSIGN_PREFIX) {
      assign := true;
      if "$$0" in lookup {
        lookup := lookup["$$0" := Unclean(lookup["$$0"])];
      }
      eq := Substr(eq, 6);
    }
    pr := Prepared(eq, lookup, assign);
  }

  /** `parse` (entry.js:222-285): the simplifier's parse-and-simplify is the parameter `simplify`. */
  method Parse(parts: seq<string>, cfg: Config, simplify: string -> Option<MathNode>) returns (r: Result<seq<string>>)
    requires AllSplitAtoms(parts)
    ensures r == ParseSpec(parts, cfg, simplify)
  {
    var pr := PrepareParts(parts);
    var mjstree := simplify(pr.text);
    if mjstree.None? {
      return Err(SimplifierFailure);
    }
    var tree := Iterate(mjstree.value, pr.lookup, cfg, 0);
    if tree.Err? {
      return Err(tree.error);
    }
    var root := tree.value.node;
    if pr.assign {
      if "$$0" !in pr.lookup {
        return Err(TypeError);
      }
      var top := MakeOp(pr.lookup["$$0"], root, "=");
      if top.Err? {
        return Err(top.error);
      }
      root := top.value;
    }
    r := Emit(root, cfg);
  }

  /** Lines 280-284: build the root into a fresh output list and put the header first. */
  method Emit(root: Node, cfg: Config) returns (r: Result<seq<string>>)
    ensures r == Output(root, cfg)
  {
    var e := new Emitter();
    var built := e.Build(root, false, cfg);
    ghost var g := Gen(root, false, cfg, 0);
    assert e.out == [] + g.lines == g.lines;
    if built.Err? {
      return Err(built.error);
    }
    r := Ok([Header(cfg)] + e.out);
  }

  /** The `eq` handler (entry.js:294-298): split the expression into atoms and parse them. */
  method Compile(expr: string, cfg: Config, simplify: string -> Option<MathNode>) returns (r: Result<seq<string>>)
    ensures AllSplitAtoms(Split(expr)) && r == ParseSpec(Split(expr), cfg, simplify)
  {
    SplitAtoms(expr);
    r := Parse(Split(expr), cfg, simplify);
  }
}
