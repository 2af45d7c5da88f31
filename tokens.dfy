/**
 * Tokenising: the atom split of the `eq` handler (entry.js:294-297),
 * `isNumber` (entry.js:199-201) and `fixup` (entry.js:202-221).
 */
module Tokens {
  import opened JsNumbers
  import opened Nodes

  /** The characters the split regex isolates (entry.js:295). */
  const SPECIALS: seq<char> := ['=', '(', ')', '+', '-', '*', '%', '/', ',']

  /** `punctuation` (entry.js:197-198): the same nine characters as one-letter atoms; `<` and `>` are not among them. */
  const PUNCTUATION: seq<string> := ["(", ")", "+", "-", "/", "*", "%", "=", ","]

  predicate IsPunct(a: string) {
    a in PUNCTUATION
  }

  /** `.replace(/([=()+\-*%/,])/g, " $1 ")`. */
  function Pad(e: string): string {
    if e == [] then [] else (if e[0] in SPECIALS then [' ', e[0], ' '] else [e[0]]) + Pad(e[1..])
  }

  /** `.split(" ")`: the pieces between single spaces, empty ones included. */
  function SplitSpaces(s: string): (r: seq<string>)
    ensures |r| > 0
  {
    if s == [] then [""]
    else
      var rest := SplitSpaces(s[1..]);
      if s[0] == ' ' then [""] + rest else [[s[0]] + rest[0]] + rest[1..]
  }

  /** `.filter(Boolean)` on strings: drop the empty ones. */
  function NonEmpty(ps: seq<string>): (r: seq<string>)
    ensures |r| <= |ps|
    ensures forall i :: 0 <= i < |r| ==> r[i] != ""
  {
    if ps == [] then [] else (if ps[0] == "" then [] else [ps[0]]) + NonEmpty(ps[1..])
  }

  /** The atoms of an expression text (entry.js:294-297). */
  function Split(e: string): (r: seq<string>)
    ensures forall i :: 0 <= i < |r| ==> r[i] != ""
  {
    NonEmpty(SplitSpaces(Pad(e)))
  }

  predicate NoSpecials(a: string) {
    forall i :: 0 <= i < |a| ==> a[i] !in SPECIALS
  }

  /** A piece of the padded text: no space, and either one special character or none. */
  predicate IsPiece(a: string) {
    ' ' !in a && ((|a| == 1 && a[0] in SPECIALS) || NoSpecials(a))
  }

  /** What the split produces: a non-empty piece. */
  predicate IsSplitAtom(a: string) {
    |a| > 0 && IsPiece(a)
  }

  function Concat(ps: seq<string>): string {
    if ps == [] then "" else ps[0] + Concat(ps[1..])
  }

  function WithoutSpaces(s: string): string {
    if s == [] then "" else (if s[0] == ' ' then "" else [s[0]]) + WithoutSpaces(s[1..])
  }

  lemma SplitSpecialChar(c: char, x: string)
    requires c != ' '
    ensures SplitSpaces([' ', c, ' '] + x) == ["", [c]] + SplitSpaces(x)
  {
    var s := [' ', c, ' '] + x;
    var r := SplitSpaces([' '] + x);
    assert ([' '] + x)[1..] == x;
    assert r == [""] + SplitSpaces(x);
    assert s[1..] == [c, ' '] + x;
    assert s[1..][1..] == [' '] + x;
    assert SplitSpaces(s[1..]) == [[c] + r[0]] + r[1..];
    assert r[1..] == SplitSpaces(x);
    assert [c] + r[0] == [c];
    assert SplitSpaces(s) == [""] + SplitSpaces(s[1..]);
  }

  /** Every piece of the padded text is well formed, and the first has no special character. */
  lemma {:induction false} PaddedPieces(e: string)
    ensures var ps := SplitSpaces(Pad(e));
      (forall i :: 0 <= i < |ps| ==> IsPiece(ps[i])) && NoSpecials(ps[0])
  {
    if e != [] {
      var c := e[0];
      var tail := Pad(e[1..]);
      PaddedPieces(e[1..]);
      var rest := SplitSpaces(tail);
      if c in SPECIALS {
        SplitSpecialChar(c, tail);
        assert Pad(e) == [' ', c, ' '] + tail;
      } else {
        assert Pad(e) == [c] + tail;
        assert ([c] + tail)[1..] == tail;
        if c != ' ' {
          var first := [c] + rest[0];
          assert forall i :: 0 <= i < |first| ==> first[i] == c || first[i] == rest[0][i - 1];
          assert NoSpecials(first) && ' ' !in first;
        }
      }
    }
  }

  lemma {:induction false} NonEmptyKeeps(ps: seq<string>)
    ensures forall a :: a in NonEmpty(ps) ==> a != "" && a in ps
  {
    if ps != [] {
      NonEmptyKeeps(ps[1..]);
    }
  }

  /** Every atom of the split is a non-empty, space-free run that is one special character or holds none. */
  lemma SplitAtoms(e: string)
    ensures forall i :: 0 <= i < |Split(e)| ==> IsSplitAtom(Split(e)[i])
  {
    PaddedPieces(e);
    NonEmptyKeeps(SplitSpaces(Pad(e)));
    var ps := SplitSpaces(Pad(e));
    forall i | 0 <= i < |Split(e)|
      ensures IsSplitAtom(Split(e)[i])
    {
      var a := Split(e)[i];
      assert a in NonEmpty(ps);
      var j :| 0 <= j < |ps| && ps[j] == a;
    }
  }

  lemma {:induction false} ConcatNonEmpty(ps: seq<string>)
    ensures Concat(NonEmpty(ps)) == Concat(ps)
  {
    if ps != [] {
      ConcatNonEmpty(ps[1..]);
      var head := if ps[0] == "" then [] else [ps[0]];
      ConcatAppend(head, NonEmpty(ps[1..]));
      assert Concat(head) == ps[0];
    }
  }

  lemma {:induction false} ConcatAppend(a: seq<string>, b: seq<string>)
    ensures Concat(a + b) == Concat(a) + Concat(b)
  {
    if a != [] {
      ConcatAppend(a[1..], b);
      assert (a + b)[1..] == a[1..] + b;
    } else {
      assert a + b == b;
    }
  }

  lemma {:induction false} ConcatSplitSpaces(s: string)
    ensures Concat(SplitSpaces(s)) == WithoutSpaces(s)
  {
    if s != [] {
      ConcatSplitSpaces(s[1..]);
      var rest := SplitSpaces(s[1..]);
      if s[0] == ' ' {
        assert ([""] + rest)[1..] == rest;
      } else {
        var r := [[s[0]] + rest[0]] + rest[1..];
        assert r[1..] == rest[1..];
        assert Concat(rest) == rest[0] + Concat(rest[1..]);
      }
    }
  }

  lemma {:induction false} WithoutSpacesAppend(a: string, b: string)
    ensures WithoutSpaces(a + b) == WithoutSpaces(a) + WithoutSpaces(b)
  {
    if a != [] {
      WithoutSpacesAppend(a[1..], b);
      assert (a + b)[1..] == a[1..] + b;
    } else {
      assert a + b == b;
    }
  }

  lemma {:induction false} WithoutSpacesPad(e: string)
    ensures WithoutSpaces(Pad(e)) == WithoutSpaces(e)
  {
    if e != [] {
      WithoutSpacesPad(e[1..]);
      var chunk := if e[0] in SPECIALS then [' ', e[0], ' '] else [e[0]];
      WithoutSpacesAppend(chunk, Pad(e[1..]));
      if e[0] in SPECIALS {
        assert chunk[1..] == [e[0], ' '];
        assert chunk[1..][1..] == [' '];
        assert WithoutSpaces([' ']) == "";
        assert WithoutSpaces([e[0], ' ']) == [e[0]];
      }
      assert WithoutSpaces(chunk) == [e[0]] || (e[0] == ' ' && WithoutSpaces(chunk) == "");
    }
  }

  /** The split loses no character but the spaces: its atoms run together give the text without spaces. */
  lemma SplitKeepsText(e: string)
    ensures Concat(Split(e)) == WithoutSpaces(e)
  {
    ConcatNonEmpty(SplitSpaces(Pad(e)));
    ConcatSplitSpaces(Pad(e));
    WithoutSpacesPad(e);
  }

  // ---- isNumber ----

  /** The number of leading `-` characters. */
  function Dashes(s: string): (k: nat)
    ensures k <= |s|
  {
    if s != [] && s[0] == '-' then 1 + Dashes(s[1..]) else 0
  }

  predicate AllDigits(s: string) {
    forall i :: 0 <= i < |s| ==> IsDigit(s[i])
  }

  /** The index of the first `c` in `s`, or `|s|` when there is none. */
  function Find(s: string, c: char): (k: nat)
    ensures k <= |s| && (k < |s| ==> s[k] == c)
    ensures forall i :: 0 <= i < k ==> s[i] != c
  {
    if s == [] then 0 else if s[0] == c then 0 else 1 + Find(s[1..], c)
  }

  /** `[0-9]+(\.[0-9]+)?` matches the whole of `s`. */
  predicate IsDecimal(s: string)
  {
    var p := Find(s, '.');
    && p > 0 && AllDigits(s[..p])
    && (p < |s| ==> p + 1 < |s| && AllDigits(s[p + 1..]))
  }

  lemma DecimalEndsInDigit(s: string)
    ensures IsDecimal(s) ==> |s| > 0 && IsDigit(s[|s| - 1])
  {
  }

  /** `isNumber` (entry.js:199-201): `/^-*[0-9]+(\.[0-9]+)?$/`. */
  predicate IsNumber(s: string)
    ensures IsNumber(s) ==> |s| > 0 && IsDigit(s[|s| - 1])
  {
    DecimalEndsInDigit(s[Dashes(s)..]);
    IsDecimal(s[Dashes(s)..])
  }

  function Pow10(k: nat): (r: nat)
    ensures r > 0
  {
    if k == 0 then 1 else 10 * Pow10(k - 1)
  }

  function FractionDigits(s: string): string
    requires IsDecimal(s)
  {
    var p := Find(s, '.');
    if p < |s| then s[p + 1..] else ""
  }

  /** `Number(s)` of an unsigned decimal. */
  function DecimalValue(s: string): real
    requires IsDecimal(s)
  {
    var f := FractionDigits(s);
    DigitsValue(s[..Find(s, '.')]) as real + DigitsValue(f) as real / Pow10(|f|) as real
  }

  lemma {:induction false} DigitsBelowPow10(s: string)
    requires AllDigits(s)
    ensures DigitsValue(s) < Pow10(|s|)
  {
    if s != [] {
      DigitsBelowPow10(s[..|s| - 1]);
    }
  }

  /** `Math.floor(Number(s))` of an unsigned decimal is its integer part. */
  lemma DecimalFloor(s: string)
    requires IsDecimal(s)
    ensures DecimalValue(s).Floor == DigitsValue(s[..Find(s, '.')])
  {
    var f := FractionDigits(s);
    DigitsBelowPow10(f);
    FractionBelowOne(DigitsValue(f), Pow10(|f|));
    FloorOfFraction(DigitsValue(s[..Find(s, '.')]), DigitsValue(f) as real / Pow10(|f|) as real);
  }

  lemma FractionBelowOne(a: nat, b: nat)
    requires a < b
    ensures 0.0 <= a as real / b as real < 1.0
  {
    var q := a as real / b as real;
    assert q * b as real == a as real;
  }

  lemma FloorOfFraction(n: nat, f: real)
    requires 0.0 <= f < 1.0
    ensures (n as real + f).Floor == n
  {
  }

  /** The decimal text of a natural number is a number atom whose value is that number. */
  lemma NatTextIsNumber(n: nat)
    ensures IsSplitAtom(NatText(n)) && !IsPunct(NatText(n))
    ensures IsNumber(NatText(n)) && Dashes(NatText(n)) == 0
    ensures DecimalValue(NatText(n)).Floor == n
  {
    var s := NatText(n);
    assert AllDigits(s);
    DigitsAreAtom(s);
    DigitsAreDecimal(s);
    assert s[..|s|] == s;
    NatTextRoundTrip(n);
    DecimalFloor(s);
  }

  lemma DigitsAreAtom(s: string)
    requires |s| > 0 && AllDigits(s)
    ensures IsSplitAtom(s) && !IsPunct(s)
  {
    assert forall i :: 0 <= i < |s| ==> s[i] != ' ' && s[i] !in SPECIALS;
    assert IsDigit(s[0]);
  }

  lemma DigitsAreDecimal(s: string)
    requires |s| > 0 && AllDigits(s)
    ensures Dashes(s) == 0 && Find(s, '.') == |s|
    ensures IsDecimal(s) && IsNumber(s)
  {
    assert IsDigit(s[0]);
    assert forall i :: 0 <= i < |s| ==> s[i] != '.';
    assert s[..|s|] == s;
    assert s[0..] == s;
  }

  /** An atom of the split that is a number has no leading `-`: the split cuts every `-` out alone. */
  lemma NumberAtomUnsigned(a: string)
    requires IsSplitAtom(a) && IsNumber(a)
    ensures Dashes(a) == 0 && IsDecimal(a)
  {
    assert a[0] == '-' ==> |a| == 1;
    assert |a| == 1 ==> a[1..] == [];
  }

  // ---- fixup ----

  /** A member of the list `fixup` returns: an atom string, or an operand object. */
  datatype Part = Atom(text: string) | Operand(node: Node)

  /**
   * The loop of `fixup` (entry.js:204-214) run from some index on: two
   * consecutive non-punctuation atoms become one holder and are both skipped;
   * any other atom passes through. It stops before the last atom.
   */
  function Pairs(s: seq<string>): (r: seq<Part>)
    ensures |r| <= |s|
    decreases |s|
  {
    if |s| < 2 then []
    else if !IsPunct(s[0]) && !IsPunct(s[1]) then [Operand(NewHolder(s[0], s[1]))] + Pairs(s[2..])
    else [Atom(s[0])] + Pairs(s[1..])
  }

  /** Every operand the loop of `fixup` makes is a fresh holder: no macro, and clean. */
  lemma {:induction false} PairsOperands(s: seq<string>)
    ensures forall p :: p in Pairs(s) && p.Operand? ==> p.node.Holder? && p.node.macro.None? && p.node.clean
    decreases |s|
  {
    if |s| >= 2 {
      var k := if !IsPunct(s[0]) && !IsPunct(s[1]) then 2 else 1;
      PairsOperands(s[k..]);
    }
  }

  /** The loop never reaches the last atom on its own: it emits fewer parts than there are atoms. */
  lemma {:induction false} PairsShorter(s: seq<string>)
    ensures |s| > 0 ==> |Pairs(s)| < |s|
    decreases |s|
  {
    if |s| >= 2 {
      var k := if !IsPunct(s[0]) && !IsPunct(s[1]) then 2 else 1;
      PairsShorter(s[k..]);
    }
  }

  /**
   * The step after the loop (entry.js:215-219), always on the last atom, even
   * when the loop already consumed it: punctuation passes through, a number
   * becomes a constant, anything else is dropped.
   */
  function Trailing(parts: seq<string>): (r: seq<Part>)
    requires parts != [] ==> IsSplitAtom(parts[|parts| - 1])
    ensures |r| <= 1
    ensures r != [] && r[0].Atom? ==> IsPunct(r[0].text)
    ensures r != [] && r[0].Operand? ==> r[0].node.Constant? && r[0].node.value >= 0
  {
    if parts == [] then []
    else
      var last := parts[|parts| - 1];
      if IsPunct(last) then [Atom(last)]
      else if IsNumber(last) then
        NumberAtomUnsigned(last);
        [Operand(NewConstant(DecimalValue(last)))]
      else []
  }

  predicate AllSplitAtoms(parts: seq<string>) {
    forall i :: 0 <= i < |parts| ==> IsSplitAtom(parts[i])
  }

  /** `fixup(parts)`. */
  function Fixed(parts: seq<string>): (r: seq<Part>)
    requires AllSplitAtoms(parts)
    ensures |r| <= |parts|
    ensures forall p :: p in r && p.Operand? ==>
      (p.node.Holder? && p.node.macro.None? && p.node.clean) || (p.node.Constant? && p.node.value >= 0)
  {
    PairsOperands(parts);
    PairsShorter(parts);
    Pairs(parts) + Trailing(parts)
  }

  /** Every atom the loop of `fixup` passes through is one of the split's atoms. */
  lemma {:induction false} PairsAtoms(s: seq<string>)
    requires AllSplitAtoms(s)
    ensures forall p :: p in Pairs(s) && p.Atom? ==> IsSplitAtom(p.text)
    decreases |s|
  {
    if |s| >= 2 {
      var k := if !IsPunct(s[0]) && !IsPunct(s[1]) then 2 else 1;
      assert AllSplitAtoms(s[k..]) by {
        forall i | 0 <= i < |s| - k
          ensures IsSplitAtom(s[k..][i])
        {
          assert s[k..][i] == s[k + i];
        }
      }
      PairsAtoms(s[k..]);
    }
  }

  /** Every atom `fixup` returns, from the loop or the trailing step, is one of the split's atoms. */
  lemma FixedAtoms(parts: seq<string>)
    requires AllSplitAtoms(parts)
    ensures forall p :: p in Fixed(parts) && p.Atom? ==> IsSplitAtom(p.text)
  {
    PairsAtoms(parts);
    assert Fixed(parts) == Pairs(parts) + Trailing(parts);
  }

  lemma AppendOne(res: seq<Part>, p: Part, rest: seq<Part>)
    ensures (res + [p]) + rest == res + ([p] + rest)
  {
  }

  /** The index loop of `fixup` (entry.js:204-214), with its manual skip over a merged pair. */
  method FixupPairs(parts: seq<string>) returns (res: seq<Part>)
    ensures res == Pairs(parts)
  {
    res := [];
    var i := 0;
    while i < |parts| - 1
      invariant 0 <= i <= |parts|
      invariant res + Pairs(parts[i..]) == Pairs(parts)
    {
      var s := parts[i..];
      if !IsPunct(parts[i]) && !IsPunct(parts[i + 1]) {
        assert s[2..] == parts[i + 2..];
        var p := Operand(NewHolder(parts[i], parts[i + 1]));
        assert Pairs(s) == [p] + Pairs(parts[i + 2..]);
        AppendOne(res, p, Pairs(parts[i + 2..]));
        res := res + [p];
        i := i + 1;
      } else {
        assert s[1..] == parts[i + 1..];
        assert Pairs(s) == [Atom(parts[i])] + Pairs(parts[i + 1..]);
        AppendOne(res, Atom(parts[i]), Pairs(parts[i + 1..]));
        res := res + [Atom(parts[i])];
      }
      i := i + 1;
    }
    assert Pairs(parts[i..]) == [];
    assert res + [] == res;
  }

  /** `fixup` (entry.js:202-221): the pair loop, then the last atom again. */
  method Fixup(parts: seq<string>) returns (res: seq<Part>)
    requires AllSplitAtoms(parts)
    ensures res == Fixed(parts)
  {
    res := FixupPairs(parts);
    if |parts| > 0 {
      var last := parts[|parts| - 1];
      if IsPunct(last) {
        res := res + [Atom(last)];
      } else if IsNumber(last) {
        NumberAtomUnsigned(last);
        res := res + [Operand(NewConstant(DecimalValue(last)))];
      }
    }
  }

  /** The atoms a part of the loop's output came from. */
  function Unfixed(p: Part): seq<string> {
    match p
    case Atom(t) => [t]
    case Operand(n) => if n.Holder? then [n.name, n.objective] else []
  }

  function Flatten(ps: seq<Part>): seq<string> {
    if ps == [] then [] else Unfixed(ps[0]) + Flatten(ps[1..])
  }

  /**
   * The loop of `fixup` keeps every atom it visits, in order: its output
   * spells out all atoms but the last, or all of them when the last two were
   * merged into a holder, which needs both to be non-punctuation.
   */
  lemma {:induction false} PairsCover(s: seq<string>)
    ensures |s| <= 1 ==> Flatten(Pairs(s)) == []
    ensures |s| >= 1 ==>
      || Flatten(Pairs(s)) == s[..|s| - 1]
      || (Flatten(Pairs(s)) == s && |s| >= 2 && !IsPunct(s[|s| - 2]) && !IsPunct(s[|s| - 1]))
    decreases |s|
  {
    if |s| >= 2 {
      var k := PairWidth(s);
      var rest := s[k..];
      PairsCover(rest);
      FlattenPairsHead(s);
      if |rest| == 0 {
        assert s[..k] == s;
      } else if Flatten(Pairs(rest)) == rest[..|rest| - 1] {
        assert s[..k] + rest[..|rest| - 1] == s[..|s| - 1];
      } else {
        assert s[..k] + rest == s;
        assert rest[|rest| - 2] == s[|s| - 2];
      }
    }
  }

  /** How many atoms the loop of `fixup` consumes at the head of `s`. */
  function PairWidth(s: seq<string>): (k: nat)
    requires |s| >= 2
    ensures 1 <= k <= 2
  {
    if !IsPunct(s[0]) && !IsPunct(s[1]) then 2 else 1
  }

  /** The part the loop of `fixup` emits for the head of `s`. */
  function HeadPart(s: seq<string>): Part
    requires |s| >= 2
  {
    if PairWidth(s) == 2 then Operand(NewHolder(s[0], s[1])) else Atom(s[0])
  }

  lemma PairsHead(s: seq<string>)
    requires |s| >= 2
    ensures Pairs(s) == [HeadPart(s)] + Pairs(s[PairWidth(s)..])
  {
  }

  lemma UnfixedHead(s: seq<string>)
    requires |s| >= 2
    ensures Unfixed(HeadPart(s)) == s[..PairWidth(s)]
  {
    assert s[..2] == [s[0], s[1]];
    assert s[..1] == [s[0]];
  }

  lemma FlattenPairsHead(s: seq<string>)
    requires |s| >= 2
    ensures Flatten(Pairs(s)) == s[..PairWidth(s)] + Flatten(Pairs(s[PairWidth(s)..]))
  {
    PairsHead(s);
    UnfixedHead(s);
    FlattenCons(HeadPart(s), Pairs(s[PairWidth(s)..]));
  }

  lemma FlattenCons(p: Part, ps: seq<Part>)
    ensures Flatten([p] + ps) == Unfixed(p) + Flatten(ps)
  {
    assert ([p] + ps)[0] == p && ([p] + ps)[1..] == ps;
  }

  /**
   * The last atom is looked at again after the loop: when a numeric atom
   * closes a pair it becomes both the pair's objective and a constant.
   */
  lemma TrailingNumberCountedTwice(name: string, n: nat)
    requires IsSplitAtom(name) && !IsPunct(name)
    ensures AllSplitAtoms([name, NatText(n)])
    ensures Fixed([name, NatText(n)]) == [Operand(NewHolder(name, NatText(n))), Operand(Constant(n))]
  {
    NatTextIsNumber(n);
    var s := [name, NatText(n)];
    assert s[2..] == [];
    assert Pairs(s) == [Operand(NewHolder(name, NatText(n)))];
    assert Trailing(s) == [Operand(NewConstant(DecimalValue(NatText(n))))];
  }
}
