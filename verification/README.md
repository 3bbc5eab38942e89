# Molar-mass calculator core, modelled in Dafny

The calculator turns free-form text into a chemical formula and the formula into a
molar mass. Its core is one script, `script.js`, made of four parts:

- `atomicWeights`, the table of the 118 elements with their standard weights;
- `compoundNames`, fifteen common names (`water`, `baking_soda`, …) with their formulas;
- `normalizeInput`, which builds a lookup key from the text (trim, lower-case, each
  whitespace run replaced by `_`) and returns the table formula on a hit; otherwise
  it runs a case-fixing scan over the original text: a letter is upper-cased, a
  following lower-case letter joins it, and everything else is copied;
- `calculateMolarMass`, a single left-to-right pass with a running total and a stack
  of parent totals: `(` suspends the total, and `)` folds the group into its parent,
  scaled by the multiplier written after it.

The model has seven modules:

- `Chars`: the JavaScript character classes used (`/[a-zA-Z]/`, `/[a-z]/`, `/\d/`, and
  `/\s/` together with `trim`'s whitespace set) and ASCII case mapping.
- `Tables`: both tables as lookup functions that yield `None` for a missing own
  property. The element table is split into one function per source line, each named
  by the first and last symbol on that line.
- `AliasKeys`: `trim`, `toLowerCase` and `replace(/\s+/g, "_")`, giving the lookup key.
- `Tokenizer`: the case-fixing scan, plus a position-by-position reference reading to
  compare it with.
- `Normalizer`: `normalizeInput`, once with the lookup restricted to the table's own
  entries (`Normalize`) and once exactly as written (`NormalizeAsWritten`).
- `Evaluator`: `calculateMolarMass` as a step function over an explicit state (index,
  total, stack), run to the end of the formula.
- `Groups`: a reference semantics for the evaluator. A formula is a tree of atoms and
  parenthesised groups, each with its digit run. The mass of a tree is computed by
  structural recursion, and the evaluator's stack pass agrees with it on every rendered
  well-formed tree.

The text of `script.js` breaks off inside `calculateMolarMass`, in the middle of the
`)` branch, at `total = (stack.pop() || 0) + total *`. The visible part is modelled
exactly. What follows it is not in the source, so the model treats it as follows:

- the multiplier expression is a parameter, `mult: string -> real`, applied to the digit
  run read after `)`;
- the element branch (an upper-case letter starts a symbol, an unknown symbol stops the
  scan with `UnknownElement`) is an assumption;
- so are the skipping of any other character and the final `return total`.

The members that rest on these assumptions are named under "## Left out".

The scan never consults the element table. It does no longest-match symbol lookup
and drops no character: every character it does not upper-case is copied.

## Model

| member | source | states |
|---|---|---|
| Tables.AtomicWeight | script.js:2-20 | `atomicWeights[symbol]` for the 118 elements; every key the table knows is a symbol (an upper-case letter, optionally followed by one lower-case letter) and its weight is positive |
| Tables.CompoundFormula | script.js:23-39 | `compoundNames[name]` restricted to the fifteen own entries; every formula is a non-empty string |
| Normalizer.AliasNamesAreWords | script.js:23-39 | every compound name is spelt with lower-case letters and underscores only |
| Normalizer.DigitKeyIsNoAlias | script.js:23-39 | a key containing a digit is never a compound name, so a formula with a digit never hits the table |
| Normalizer.AliasFormulasAreOk | script.js:23-39 | every formula in the compound table is non-empty and free of whitespace, has each lower-case letter right after an upper-case one (so the case-fixing scan leaves it unchanged), uses only symbols the element table knows, and is not itself a compound name |
| Normalizer.AliasNamesAreKeys | script.js:23-44 | typing a compound name as the table spells it produces that name as the key and returns its formula |
| Chars.IsLetter | script.js:50 | `/[a-zA-Z]/`: exactly the ASCII upper- and lower-case letters |
| Chars.IsLower | script.js:53 | `/[a-z]/`: exactly the ASCII lower-case letters |
| Chars.ToUpper | script.js:51 | `toUpperCase` on a character the scan has matched with `/[a-zA-Z]/`: upper-cases an ASCII lower-case letter and leaves every other character unchanged |
| Chars.IsDigit | script.js:80 | `/\d/`: exactly the ten ASCII digits |
| Chars.IsSpace | script.js:43 | the characters `/\s/` matches and `trim` removes: tab, line feed, vertical tab, form feed, carriage return, space, no-break space, the Unicode space separators, line and paragraph separator, and the byte-order mark |
| Chars.SpaceIsNoWordChar | script.js:43 | whitespace is never a letter, a digit or `_` |
| Chars.Lower | script.js:43 | `toLowerCase` maps each character on its own and keeps the length (ASCII letters only) |
| Chars.CaseMappingKeepsClass | script.js:43 | upper- and lower-casing never change whether a character is whitespace, a digit or a letter |
| AliasKeys.Trim | script.js:43 | `trim` yields a slice of the input that neither starts nor ends with whitespace, and only whitespace is dropped on either side |
| AliasKeys.TrimAround | script.js:43 | `trim` of whitespace + core + whitespace is exactly the core, when the core starts and ends with a non-space |
| AliasKeys.Collapse | script.js:43 | `replace(/\s+/g, "_")` from a position on leaves no whitespace and never lengthens the text |
| AliasKeys.CollapseSpaces | script.js:43 | the whole replacement leaves no whitespace and never lengthens the text |
| AliasKeys.AliasKey | script.js:43 | the key `trim().toLowerCase().replace(/\s+/g, "_")` holds no whitespace and is no longer than the input |
| AliasKeys.CollapseRun | script.js:43 | a whole whitespace run before a non-space character becomes a single underscore |
| AliasKeys.CollapseKeepsWord | script.js:43 | text without whitespace passes through the underscore replacement unchanged |
| AliasKeys.AliasKeyIgnoresCase | script.js:43 | two inputs that agree once lower-cased produce the same lookup key |
| AliasKeys.NoSpaceKey | script.js:43 | for text without whitespace the key is just its lower-case form |
| AliasKeys.TwoWordKey | script.js:43 | two words with any surrounding and separating whitespace give `word1_word2` in lower case (so "  Sodium  Chloride " finds `sodium_chloride`) |
| AliasKeys.WordIsOwnKey | script.js:43 | text of lower-case letters and underscores is its own key |
| Tokenizer.Tokenize | script.js:47-63 | the scan over the whole input equals the position-by-position reference reading |
| Tokenizer.Lex | script.js:47-62 | the scan emits exactly one output character per input character from the current position on |
| Tokenizer.LexIsCanonical | script.js:47-63 | from every token boundary the scan produces the reference reading: letters that start a token are upper-cased and every other character is kept |
| Tokenizer.TokenizeChangesOnlyCase | script.js:47-63 | the scan keeps the length, keeps every non-letter and every letter that does not start a token, upper-cases each token start, and agrees with the input once lower-cased |
| Tokenizer.TokenizeIdempotent | script.js:47-63 | scanning the scan's output changes nothing |
| Tokenizer.FixedPointsAreWellCased | script.js:47-63 | the scan leaves a string unchanged exactly when each lower-case letter in it directly follows an upper-case letter |
| Tokenizer.WellCasedTokens | script.js:50-56 | in such a string the tokens start exactly at the upper-case letters |
| Tokenizer.LexReadsSymbol | script.js:50-56 | one iteration at a letter emits the symbol starting there (the letter, plus the next character exactly when it is a lower-case ASCII letter) with its first letter upper-cased, and resumes right after it |
| Tokenizer.TokenizeSymbolAt | script.js:47-63 | at every token start, the symbol read from the scan's output is the token the scan emitted: the input's symbol with its first letter upper-cased |
| Tokenizer.ExampleWaterFormula | script.js:46-63 | "h2o" becomes "H2O", the example the source's own comment gives |
| Tokenizer.ExampleSodiumChloride | script.js:47-63 | "nacl" becomes "NaCl" |
| Tokenizer.ExampleAceticAcid | script.js:47-63 | "ch3cooh" becomes "Ch3CoOh": a lower-case letter after a token start always joins it |
| Tokenizer.ExampleCarbonDioxide | script.js:47-63 | "co2" becomes "Co2" (cobalt), not "CO2" |
| Normalizer.Normalize | script.js:42-64 | on a key in the compound table the result is its formula; otherwise it has the input's length, equals the input once lower-cased, and keeps every non-letter |
| Normalizer.NormalizeIdempotent | script.js:42-64 | normalizing a normalized result changes nothing, on table hits and on scanned input alike |
| Normalizer.ExampleWater | script.js:42-64 | "water" normalizes to "H2O" |
| Normalizer.ExampleLowerCaseFormula | script.js:42-64 | "h2o" is no compound name, and the scan turns it into "H2O" |
| Normalizer.PropertyOf | script.js:44 | reading `compoundNames[key]` gives an own entry, holding the table's formula, exactly for the fifteen names, an inherited member exactly for `constructor` and `__proto__`, and `undefined` otherwise |
| Normalizer.AliasFormulaNonEmpty | script.js:44 | every own entry is a non-empty string, hence truthy, so for own entries the truthiness test is membership |
| Normalizer.NormalizeAsWritten | script.js:42-64 | the function as written returns a non-formula exactly when the key is `constructor` or `__proto__`, and otherwise what `Normalize` returns |
| Normalizer.ConstructorIsInheritedKey | script.js:44 | the input "constructor" makes the function as written return the inherited constructor instead of a formula |
| Normalizer.AsWrittenAgreesOffInheritedKeys | script.js:44 | on every input whose key is not one of the two inherited names, the function as written agrees with `Normalize` |
| Evaluator.DigitRunEnd | script.js:80 | the digit loop stops at the first non-digit or at the end of the formula, and everything it passes is a digit |
| Evaluator.DigitRunEndIs | script.js:80 | that stopping point is unique: any position with only digits before it and a non-digit or the end at it is where the loop stops |
| Evaluator.Evaluate | script.js:67-72 | the loop from index 0, total 0 and an empty stack ends either at the end of the formula or at a symbol the element table does not know |
| Evaluator.ElementStep | script.js:72 | ASSUMED element branch (not in the source text): an unknown symbol stops with that symbol; a known one advances past it and its digit run and keeps the stack |
| Evaluator.MolarMass | script.js:67 | ASSUMED `return total` (not in the source text): a result exactly when the loop reads the whole formula, and then it is the final total |
| Evaluator.DecimalMultiplier | script.js:81 | ASSUMED multiplier (the source breaks off at `total *`): no digits mean 1, and a digit run is never negative |
| Evaluator.Pop | script.js:81 | `stack.pop() \|\| 0` yields the last total and the stack without it, or 0 and the empty stack when nothing is open |
| Evaluator.StepAt | script.js:72-81 | `(` pushes the total and starts from 0; `)` reads the digit run after it and sets the total to parent + total × multiplier; every step advances the index; no step passes a parenthesis after its first character |
| Evaluator.Run | script.js:72 | the loop succeeds only at the end of the formula |
| Evaluator.Steps | script.js:72-81 | the loop runs at most as many iterations as the formula has characters |
| Evaluator.StepDepth | script.js:73-81 | each iteration keeps the stack as deep as the reference nesting depth of the text read so far |
| Evaluator.EvaluateDepth | script.js:67-81 | at the end of a successful run the stack holds one total per group still open |
| Evaluator.ExampleUnknownElement | script.js:67-81 | under the assumed element branch, "Xx2" stops at once with `UnknownElement("Xx")` |
| Evaluator.DepthCounts | script.js:73-81 | the nesting depth is at least the number of `(` minus the number of `)`, and equals it when no prefix closes more than it opened |
| Groups.OpenRun | script.js:73-76 | an opening parenthesis suspends the running total on the stack and restarts from 0 |
| Groups.CloseRun | script.js:77-81 | a closing parenthesis followed by digits `d` pops the parent and continues with parent + inner total × multiplier of `d` |
| Groups.RunParts | script.js:72-81 | starting the loop at a rendered sequence of parts finishes exactly as starting just past it with the parts' structural mass added to the total and the same stack |
| Groups.EvaluateRender | script.js:67-81 | on every rendered well-formed tree, the evaluator ends successfully with an empty stack and the structural mass of the tree |
| Groups.ExampleGlucose | script.js:67-81 | with decimal multipliers, "C6H12O6" weighs 6 × 12.011 + 12 × 1.008 + 6 × 15.999 |

## Left out

- The element branch of `calculateMolarMass`, the handling of other characters and its
  return value are past the end of the source text. `Evaluator.ElementStep` and
  `Evaluator.MolarMass` assume them as described above. These members rely on the
  assumed element and skip branches advancing the index and leaving the stack alone:
  `Evaluator.StepAt` (every step advances, no step passes a parenthesis),
  `Evaluator.Steps` (the bound of |f| iterations; in the truncated source an
  unhandled character could loop forever), `Evaluator.Evaluate`, `Evaluator.StepDepth`,
  `Evaluator.EvaluateDepth`, `Groups.RunParts`, `Groups.EvaluateRender`,
  `Groups.ExampleGlucose` and `Evaluator.ExampleUnknownElement`.
- The multiplier expression after `total *` is also missing, so `mult` is a parameter.
  `Evaluator.DecimalMultiplier` is an assumed multiplier: no digits mean 1, otherwise
  the decimal value of the digits.
- Floating point: weights and totals are exact reals. JavaScript sums doubles, so its
  result may differ in the last bits.
- Unicode case mapping: `toLowerCase` is modelled on ASCII only. Characters such as the
  Kelvin sign, which JavaScript lower-cases to `k`, can make a key match in the source
  but not in the model. The scan upper-cases only ASCII letters, so it is exact.
- JavaScript strings are UTF-16 code units and Dafny's `char` is a Unicode scalar
  value. A character outside the Basic Multilingual Plane counts once here and twice
  in the source; the scan copies it either way.
- `stack.pop() || 0` also replaces a popped `NaN` by 0. Totals are never `NaN` in this
  model, so only the empty-stack case is modelled.
- Groups.EvaluateRender: stated for formulas that render a well-formed tree. It does not
  cover formulas with unbalanced parentheses or stray characters; for those,
  `Evaluator.EvaluateDepth` and `Evaluator.DepthCounts` describe the stack.
- The user interface (form fields, buttons, result display, alerts) is not part of the
  core and is not modelled.

## Findings

| source | as written | input that shows it | evidently intended | confidence | as-written member | corrected member |
|---|---|---|---|---|---|---|
| script.js:44 | `compoundNames[lower]` reads any property of a plain object literal, including members inherited from `Object.prototype`, and returns it when truthy | "constructor" (also "__proto__"): the function returns `Object`'s constructor function (or the prototype object) instead of a formula string | only the fifteen own entries are names; any other text goes through the case-fixing scan | not executed | Normalizer.ConstructorIsInheritedKey | Normalizer.Normalize |

`Normalizer.NormalizeAsWritten` models the lookup as written. `Normalizer.Normalize`
restricts it to own entries. `Normalizer.AsWrittenAgreesOffInheritedKeys` proves the
two agree on every other key. `Normalizer.NormalizeIdempotent` is proved about the
corrected definition.
