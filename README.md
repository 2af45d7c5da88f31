# mc-math expression compiler, modelled in Dafny

`entry.js` compiles one infix integer expression, such as `x obj = y obj * 3 + 1`,
into Minecraft `scoreboard` commands. It runs in four stages:

- **Split.** The expression text is cut into atoms. Every one of `= ( ) + - * % / ,` becomes an atom of its own.
- **Fixup.** `fixup` merges each pair of consecutive non-punctuation atoms into a score holder `<name> <objective>`. A trailing number becomes a constant.
- **Parse.** `parse` puts placeholders `$$0`, `$$1`, ... in place of the operands. It strips a leading `$$0 =` assignment and hands the rest to a computer-algebra simplifier. Then `itterate` turns the simplified tree into the compiler's own nodes:
  - constants (`ScoreConstant`);
  - holders (`ScoreHolder`, possibly a macro call);
  - operations (`Op`), which fold to a constant when both operands are constant.
- **Build.** The root is built into an append-only list of commands, with a counter that names scratch registers. The output is a header that creates both objectives, followed by those commands.

The model keeps each piece in the source's own form:

- `ScoreConstant.eval` and the `Op` constructor are functions over a `Node` datatype. They use JavaScript's ToInt32 and truncating division, written out explicitly (`jsnumbers.dfy`, `nodes.dfy`).
- The builds are a class `Emitter`. Its fields are the output list and the scratch counter. Its methods are proved to follow the specification function `Gen` (`codegen.dfy`). Lemmas about `Gen` state what the builds promise (`codegen_props.dfy`).
- The split is a chain of functions. `fixup` is a method with its index loop and manual skip, proved against the functions `Pairs` and `Trailing` (`tokens.dfy`).
- Placeholder numbering is a method with its loop, counter and lookup map. `itterate` is a pair of recursive functions that thread the macro counter. `parse` is a method proved against `ParseSpec` (`bridge.dfy`).
- End-to-end lemmas compile small expressions (`bridge_props.dfy`).

The simplifier is the parameter `simplify: string -> Option<MathNode>`. `None` stands for a text it rejects. The two objective names are the parameter `cfg`.

## Model

| member | source | states |
|---|---|---|
| JsNumbers.ToInt32 | entry.js:57 | `x \| 0` is the unique 32-bit signed integer congruent to `x` modulo 2^32 |
| JsNumbers.ToInt32Unique | entry.js:57 | any 32-bit value congruent to `x` modulo 2^32 is `ToInt32(x)` |
| JsNumbers.TruncDiv | entry.js:37-39 | JavaScript's integer quotient truncated toward zero: its magnitude is the floor of the magnitudes' quotient, and it is negative only when the signs differ |
| JsNumbers.TruncRem | entry.js:46-48 | `a % b`: `a == TruncDiv(a, b) * b + r`, `\|r\| < \|b\|`, and `r` has the dividend's sign or is zero |
| JsNumbers.TruncDivRemBounds | entry.js:37-48 | the remainder left by the truncated quotient is below `\|b\|` in magnitude and is zero or has the dividend's sign |
| JsNumbers.TruncDivRemUnique | entry.js:37-48 | every quotient and remainder pair with the division identity, the magnitude bound and the dividend's sign is the truncated one |
| JsNumbers.TruncMatchesEuclidOnNaturals | entry.js:37-48 | on non-negative operands truncating and Euclidean division agree |
| JsNumbers.NatText | entry.js:8 | the decimal text of a number is non-empty and all digits |
| JsNumbers.NatTextRoundTrip | entry.js:8 | reading the decimal text of `n` gives back `n` |
| JsNumbers.NatTextInjective | entry.js:8 | different numbers have different decimal texts, so register names `#v` and placeholders never collide |
| JsStrings.Join | entry.js:265 | joining an empty list gives the empty string |
| JsStrings.Substr | entry.js:272 | `s.substr(start)` is the suffix after `start`, or empty past the end |
| JsStrings.JoinCons | entry.js:265 | a joined list is its head, the separator, then the joined rest |
| Nodes.NewConstant | entry.js:6-11 | a constant's value is `Math.floor` of its argument |
| Nodes.NewHolder | entry.js:61-66 | a new holder has the given name and objective, no macro, and is clean |
| Nodes.Transform | entry.js:102-116 | a listed operator maps to itself when it is `<`, `>` or already holds `=`, and to its compound form `op=` otherwise; an unlisted operator maps to `undefined` |
| Nodes.Eval | entry.js:25-58 | folding fails with "invalid operation" exactly for `-= += /= *= %= =`; otherwise its value is a 32-bit integer |
| Nodes.ToInt32Identity | entry.js:57 | `\| 0` leaves a 32-bit value unchanged |
| Nodes.EvalArithmeticWraps | entry.js:28-36 | `+ - *` fold to the exact result wrapped modulo 2^32, and to the exact result when it fits |
| Nodes.EvalDivisionOnInt32 | entry.js:37-48 | on 32-bit operands `/` folds to the truncated quotient (only -2^31 / -1 wraps), `%` to the truncated remainder, and a zero divisor to 0 |
| Nodes.TruncDivFits | entry.js:37-39 | a truncated quotient of 32-bit operands fits in 32 bits except for -2^31 / -1 |
| Nodes.EvalMinMaxOnInt32 | entry.js:40-45 | on 32-bit operands `<` folds to the minimum and `>` to the maximum |
| Nodes.EvalCommutes | entry.js:101 | folding `+ * < >` gives the same result in either operand order |
| Nodes.MakeOp | entry.js:86-99 | the `Op` constructor swaps a constant left operand of `+ * < >` to the right; it folds exactly when both operands are constant, to `eval` in source order, and fails exactly when it folds an assigning operator; otherwise the node keeps the operator and never has two constant operands |
| Nodes.MakeOpCommutes | entry.js:92-98 | with a reversible operator and one constant operand, both operand orders construct the same node |
| CodeGen.CanBeOptimize | entry.js:131-133 | only an operation whose right operand is constant can take the optimised path |
| CodeGenProperties.OptimizableOps | entry.js:117 | the optimisable operators are exactly those whose compound form is `+=`, `-=`, `=`, `<` or `>` |
| CodeGen.OptStep | entry.js:157-179 | the optimised step is empty exactly for a zero delta under an operator other than `=`; otherwise it writes the delta's magnitude with `add`, `remove` or `set`, and uses `set` exactly for `=` |
| CodeGen.Promote | entry.js:145-156 | promotion takes the next scratch name exactly when the left operand is clean and the operator has no `=`, and then returns that unclean register; otherwise the counter and the left descriptor stay; at most one line is queued or loaded |
| CodeGen.Gen | entry.js:12-195 | the builds of constants, holders and operations never move the scratch counter back, so scratch names are never reused |
| CodeGen.GenArgs | entry.js:77-84 | the argument builds never move the scratch counter back and, when they all succeed, yield one location per argument |
| CodeGen.OptimizedTail | entry.js:157-182 | the optimised tail keeps the counter; with a non-empty step it returns the left descriptor and appends the queued lines, then exactly one step line; with an empty step on a holder it appends nothing |
| CodeGen.GeneralTail | entry.js:183-194 | an error of the right build passes through unchanged; otherwise the tail returns the left descriptor, keeps the right build's lines first, and adds the queued lines and at most one `operation` line |
| CodeGen.Emitter.constructor | entry.js:223-225 | the output list starts empty and the scratch counter at 0 |
| CodeGen.Emitter.Temp | entry.js:280 | `temp()` returns the counter and advances it by one, leaving the output alone |
| CodeGen.Emitter.Build | entry.js:134-195 | building any node appends exactly the lines `Gen` gives, leaves the counter where `Gen` says and returns `Gen`'s descriptor or error |
| CodeGen.Emitter.BuildOperation | entry.js:143-194 | `Op.build` of an unfolded node: left build, forced load or promotion, then the optimised or general tail, in that order |
| CodeGen.Emitter.FinishOptimized | entry.js:157-182 | the optimised tail appends the queued lines and one `add`/`remove`/`set`, or returns early discarding them |
| CodeGen.Emitter.FinishGeneral | entry.js:183-194 | the general tail builds the right operand with `write`, then appends the queued lines and the `operation` line |
| CodeGen.Emitter.PromoteLeft | entry.js:145-156 | promotion takes one scratch name and queues a copy, or forces the load of a constant left operand |
| CodeGen.Emitter.BuildArgs | entry.js:77-84 | the argument builds of `getMacro` run in order with `write`, each appending its lines, and yield one location per argument |
| CodeGenProperties.ConstantBuild | entry.js:12-24 | a constant build appends one `load{...set #v obj v...}` block exactly when `write` is set, and returns `#v <constObj>`, `v`, clean, `useSet` |
| CodeGenProperties.FoldedBuildsNothing | entry.js:135-142 | a folded node appends nothing whatever `write` says and returns the constant descriptor of `eval`'s value |
| CodeGenProperties.OptStepMeaning | entry.js:157-179 | the optimised step applies the operator: `-`/`-=` subtract `v`, `+`/`+=`/`<`/`>` add `v`, `=` sets `\|v\|`, using the inverse verb with the magnitude for a negative `v`; it is empty exactly for a zero delta that is not `=` |
| CodeGenProperties.SubtractNegativeIsAdd | entry.js:162-177 | subtracting `-c` builds exactly what adding `c` builds |
| CodeGenProperties.ZeroDeltaElided | entry.js:178-182 | a zero delta on a plain holder appends nothing and returns the holder's own descriptor, though a promotion still consumed a scratch name |
| CodeGenProperties.ZeroDeltaOnMacroThrows | entry.js:180-181 | the same early return on a macro holder fails, after the left build's lines |
| CodeGenProperties.SelfAssignmentElided | entry.js:184-191 | `h = h` on the same location appends nothing |
| CodeGenProperties.AssignConstantSets | entry.js:168-179 | assigning a constant to a plain holder appends exactly one `set` of the constant's magnitude and takes no scratch name |
| CodeGenProperties.GeneralPathOrder | entry.js:183-194 | on the general path the left build's lines come first, then the forced load, the right build's lines, the queued copy, and one `operation` line unless it is a self-assignment |
| CodeGenProperties.PromotionTakesOneName | entry.js:146-153 | a clean left operand under an operator without `=` takes exactly the next scratch name, queues its copy, and the node returns that unclean register |
| CodeGenProperties.MacroArgumentLocations | entry.js:78 | `getMacro` yields one location per argument, and a leaf argument yields its own register |
| CodeGenProperties.MacroLineLast | entry.js:77-84 | a macro holder appends its arguments' lines and then its one `macro` line, and returns its own descriptor |
| CodeGenProperties.FoldedOperandNotLoaded | entry.js:184 | a folded node as the right operand of `* / %` is referenced as `#v` but never loaded, while an unfolded constant there is |
| Tokens.SplitAtoms | entry.js:294-297 | every atom of the split is non-empty, has no space, and is either one special character or has none |
| Tokens.Split | entry.js:294-297 | no atom of the split is empty |
| Tokens.SplitKeepsText | entry.js:294-297 | the atoms run together give the expression without its spaces |
| Tokens.DecimalFloor | entry.js:218 | `Math.floor` of a numeric atom is its integer part |
| Tokens.IsNumber | entry.js:199-201 | a number atom is non-empty and ends in a digit |
| Tokens.NatTextIsNumber | entry.js:199-201 | the decimal text of a natural number is a number atom, not punctuation, and denotes that number |
| Tokens.NumberAtomUnsigned | entry.js:199-201 | a numeric atom of the split has no leading `-`, because the split cuts every `-` out alone |
| Tokens.FixupPairs | entry.js:204-214 | the index loop with its manual skip produces exactly `Pairs`: a pair of non-punctuation atoms becomes one holder, and any other atom passes through |
| Tokens.Fixup | entry.js:202-221 | `fixup` returns the loop's parts followed by the trailing step on the last atom |
| Tokens.Pairs | entry.js:204-214 | the loop never makes more parts than there are atoms |
| Tokens.PairsOperands | entry.js:204-214 | every operand the loop makes is a clean holder with no macro |
| Tokens.PairsShorter | entry.js:204-214 | on a non-empty list the loop makes fewer parts than there are atoms, since it stops before the last one |
| Tokens.Trailing | entry.js:215-219 | the trailing step adds at most one part: a punctuation atom or a non-negative constant |
| Tokens.Fixed | entry.js:202-221 | `fixup` never returns more parts than atoms, and every operand it returns is a clean plain holder or a non-negative constant |
| Tokens.FixedAtoms | entry.js:202-221 | every atom `fixup` returns is one of the split's atoms |
| Tokens.PairsCover | entry.js:204-214 | the loop keeps the atoms it visits in order: all but the last, or all when the last two merged, which needs both to be non-punctuation |
| Tokens.TrailingNumberCountedTwice | entry.js:215-219 | a numeric atom that closes a pair is both the holder's objective and a trailing constant |
| Bridge.PlaceholderInjective | entry.js:260 | different operand numbers give different placeholders |
| Bridge.NumberParts | entry.js:255-265 | numbering gives one piece per part and ends the counter no higher than the number of parts |
| Bridge.PlaceholderCount | entry.js:260 | the counter `id` ends at the number of operands |
| Bridge.PlaceholderLookup | entry.js:260-262 | placeholder `$$k` is in the lookup and maps to the `k`-th operand |
| Bridge.PlaceholderKeys | entry.js:260-262 | the lookup holds nothing but placeholders below the counter |
| Bridge.PlaceholderPieces | entry.js:255-264 | each piece of the joined text is the atom itself, or the placeholder numbered by the operands before it |
| Bridge.NumberOperands | entry.js:255-265 | the map with the counter and lookup produces exactly the numbered pieces and lookup |
| Bridge.AssignmentStripped | entry.js:270-273 | a text that begins with `$$0` and `=` is an assignment, and cutting 6 characters leaves exactly the right side |
| Bridge.JoinAssignment | entry.js:265-272 | a joined list of space-free pieces passes the `$$0 =` prefix test exactly when its first two pieces are `$$0` and `=`, and `substr(6)` then leaves the remaining pieces joined |
| Bridge.PiecesAreWords | entry.js:255-265 | every piece `parse` joins for split atoms is non-empty, has no space, and starts with `=` only when it is `=` |
| Bridge.PrepareFixedAssignment | entry.js:265-273 | for such pieces, `parse` treats the text as an assignment exactly when the first two pieces are `$$0` and `=`, and hands the simplifier the pieces after them, or else all of them, joined |
| Bridge.AssignmentRecognised | entry.js:226-273 | on any split atoms, the assignment test and the text handed to the simplifier follow the same rule over the numbered pieces of `fixup`'s parts |
| Bridge.Iterate | entry.js:230-253 | bridging never moves the macro counter back; a symbol bridges exactly when it is in the lookup; a function call becomes a clean macro holder on the scratch objective, named after the function, with one argument per operand; an unknown node kind fails |
| Bridge.IterateArgs | entry.js:243 | bridging the arguments yields one node per argument and never moves the macro counter back |
| Bridge.MacroCounter | entry.js:241-247 | bridging takes one macro number per function call, and a call's holder is numbered after its arguments' calls |
| Bridge.MacroCounterArgs | entry.js:242 | bridging the arguments yields one node per argument and takes one number per call among them |
| Bridge.LiteralTreesFold | entry.js:234-235 | a tree of numbers and operators bridges to one constant and takes no macro number |
| Bridge.Unclean | entry.js:277 | only a holder is marked unclean; anything else is left as it is |
| Bridge.Header | entry.js:282 | the header is a `load{` block: it starts with `load{` and a newline and ends with a newline and `}` |
| Bridge.Prepare | entry.js:226-273 | every lookup key is a placeholder numbered no higher than the number of atoms (when it is an assignment and what text it yields is stated by Bridge.AssignmentRecognised) |
| Bridge.PrepareFixed | entry.js:255-273 | the lookup has the numbering's keys, all placeholders below the counter; only `$$0` may change, and it is marked unclean exactly when `assign` is set (when `assign` is set is stated by Bridge.PrepareFixedAssignment) |
| Bridge.Output | entry.js:280-284 | the output succeeds exactly when the build does, and is then the header followed by exactly the build's lines |
| Bridge.Finish | entry.js:275-284 | a successful output starts with the header; the bridge succeeded, and the lines after the header are the build of `Op(target, tree, "=")` with the lookup's `$$0` as the target for an assignment, and of the bridged tree itself otherwise; an assignment without a `$$0` entry fails |
| Bridge.ParseSpec | entry.js:222-285 | any successful `parse` output starts with the `load{...objectives add...}` header |
| Bridge.PrepareParts | entry.js:226-273 | fixup, numbering, joining and the assignment strip give exactly `Prepare` |
| Bridge.NumberAndStrip | entry.js:255-273 | numbering, joining and the assignment strip on fixed parts give exactly `PrepareFixed` |
| Bridge.Parse | entry.js:222-285 | `parse` returns exactly `ParseSpec` |
| Bridge.Emit | entry.js:280-284 | a fresh build of the root gives the header followed by `Gen`'s lines, or `Gen`'s error |
| Bridge.Compile | entry.js:294-298 | the handler's split yields split atoms, and it returns `ParseSpec` of them |
| BridgeProperties.FixedHolderOpNumber | entry.js:202-221 | `x obj <op> n` fixes to a holder, the operator and the constant `n` |
| BridgeProperties.PrepareAssignment | entry.js:270-277 | fixed `holder = operand` gives the simplifier `$$1` and marks the target unclean |
| BridgeProperties.PrepareOperation | entry.js:255-273 | fixed `holder <op> operand`, with an operator not starting with `=`, gives the simplifier `$$0 <op> $$1` |
| BridgeProperties.AssignConstantEndToEnd | entry.js:222-285 | `x obj = n` compiles to the header and one `scoreboard players set x obj n` |
| BridgeProperties.SelfAssignmentEndToEnd | entry.js:276-284 | `x obj = x obj` compiles to the header alone |
| BridgeProperties.AddConstantEndToEnd | entry.js:146-179 | `x obj + n` copies the holder into scratch register `0` and adds `n` there |
| BridgeProperties.LiteralProgramEmitsOnlyHeader | entry.js:134-142 | an expression that is not an assignment, and that the simplifier turns into numbers, operators and placeholders of constants only, compiles to the header alone |
| BridgeProperties.FixedNumberOpNumber | entry.js:202-221 | `a <op> b` for numbers fixes to the atom `a`, the operator, and the constant `b` |
| BridgeProperties.PrepareNumberOpNumber | entry.js:255-273 | `a <op> b` hands the simplifier `a <op> $$0`, not an assignment, with `$$0` standing for the constant `b` |
| BridgeProperties.IterateNumberOpConstant | entry.js:234-235 | bridging `a <op> $$0`, with `$$0` standing for `b`, folds to `eval(a, op, b)` and takes no macro number |
| BridgeProperties.LiteralPairEndToEnd | entry.js:222-285 | `a <op> b` for numbers, when the simplifier keeps the text as it is, folds while it is bridged and compiles to the header alone |

## Left out

- The computer-algebra library's parse and simplify are not modelled. The parameter `simplify` stands for them. Its output is the datatype `MathNode` with the node kinds `itterate` tells apart.
- The host plumbing is not modelled: the `eq` token match, `tokens.shift().token.substr(2).trim()`, `mc.transpiler.tokenize` and the `CompilerError` wrapper (entry.js:286-307). Every failure in the model is an `Err`. The wrapper turns every such failure into the same compiler error.
- The objective names come from a configuration module, which is not part of this model. They are the parameter `cfg`.
- `console.log` in `itterate`'s default branch is diagnostic output and is not modelled.
- The `selfRef` flag is set but never read.
- `executionOrder`, `getPriority` and `priority` are never used.
- `optimize()` does nothing.
- Nodes.Eval: integers are exact. JavaScript computes `+ - *` in doubles before `| 0`, so a product or sum beyond 2^53 in magnitude can round first. The model agrees with the source only below that bound.
- Nodes.Eval: a constant's value can be any integer. In JavaScript, a constant written with more than 15 or 16 significant digits is already rounded when it is read.
- Bridge.Iterate: a symbol missing from the lookup and an unknown node kind make the source return `undefined`. That value always fails later, at the latest when it is built. An operator node with fewer than two operands (a unary minus, say) throws at once, because `itterate` reads `.type` of `undefined` (entry.js:231, 235). The model fails at once with a type error in all three cases. The outcome is the same: no output.
- Bridge.Iterate: only the first two operands of an operator node are used, as in the source.
- Bridge.ParseSpec: the assignment target is a single object shared with the lookup. `equals.clean = false` therefore reaches every use of `$$0` in the tree. The model marks the lookup entry before bridging, which builds the same tree. Aliasing as such is not modelled.
- Tokens.Fixup: it requires the atoms the split produces. For an arbitrary list that a caller might pass, an atom like `--3` would make `Math.floor(Number(...))` NaN. The model leaves that out.
- Tokens.DecimalFloor: only unsigned numeric atoms are given a value. After the split, every numeric atom is unsigned (Tokens.NumberAtomUnsigned).

### Where the code and its documented design differ (the model follows the code)

- Scratch registers are named by the bare counter value (`0 <tempObjective>`, `1 <tempObjective>`), not `t0`, `t1`.
- A whole expression that folds to a constant emits no defining instruction: the output is the header alone (BridgeProperties.LiteralProgramEmitsOnlyHeader, and BridgeProperties.LiteralPairEndToEnd for `a <op> b`).
- The zero-delta early return discards the node's queued lines, but a promotion has still consumed a scratch name (CodeGenProperties.ZeroDeltaElided). On a macro holder, the same return calls `build()` without an output list and throws (CodeGenProperties.ZeroDeltaOnMacroThrows).
- `=` with a negative constant right operand, which folding can produce, sets the magnitude rather than the value (CodeGenProperties.OptStepMeaning).
- `<` and `>` with a constant right operand take the optimised path and emit `add`/`remove`, not a min/max (CodeGenProperties.OptStepMeaning).
- A folded constant on the right of `* / %` is referenced but never loaded (CodeGenProperties.FoldedOperandNotLoaded).
