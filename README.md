# tc-analyzer: the analysis routine, modelled in Dafny

tc-analyzer is a browser page. You paste C code into it and it narrates a
time-complexity estimate. All of its logic is the function `analyzeCode` in
`script.js`. The function works in four steps:

- It refuses blank input.
- It splits the text into lines and scans them once. The scan counts loop
  headers (lines whose trimmed text starts with `for` or `while`) and tracks
  how deeply they nest.
- It takes the name of the first definition-shaped match and counts how often
  that name is followed by `(`.
- It pushes a fixed sequence of narration lines onto `steps` and joins them
  with line feeds.

The project models that routine.

- `text.dfy`: the string operations the routine relies on.
  - `Text` holds JavaScript's white space set, `trim()`, `split("\n")`,
    `join("\n")`, and the decimal rendering of a count inside a template
    literal.
  - `Wrappers` holds `Option`.
- `scanner.dfy`, module `Scanner`: the counters of the line scan.
  - `Step` is the effect of one line and `Run` is the whole scan from zero.
  - `ScanLines` is the `forEach` loop, proved equal to `Run`.
  - The lemmas state what the scan keeps true.
- `recursion.dfy`, module `Recursion`: the two regular expressions of the
  recursion detector, written out as the JavaScript engine evaluates them.
  - `DefinitionAt` and `FindDefinition` give the leftmost match of
    `(\w+)\s*\([^)]*\)\s*{([\s\S]*)}`.
  - `CallAt` and `CallCount` count the matches of `name\s*\(`.
  - `DetectRecursion` is the flag and the count.
- `narration.dfy`, module `Narration`: the decision tree.
  - `Line` is one narration line before rendering and `LineText` is its exact
    text.
  - `Plan` lists the lines in order, section by section.
  - `Narrate` pushes the texts onto `steps` and is proved to push exactly
    `Render(Plan(...))`. It calls one method per section: `NarrateLoops`
    (which calls `NarrateComplexity`), `NarrateRecursion` (which calls
    `NarrateSummary` and `NarrateMasterCase`), `NarrateSearchesAgain` and
    `NarrateClosing`. Each is proved to append exactly the rendered lines of
    its own section.
- `narration.dfy`, module `NarrationFacts`: what the narration promises:
  - its ordering;
  - the precedence of the search idioms;
  - the master-theorem case;
  - the repeated search blocks;
  - the constant-time closing.
- `analyzer.dfy`, module `Analyzer`: `AnalyzeCode`, the whole routine.
  - It is proved to return `Analysis(...)`, the empty-input message for a blank
    text and the joined narration otherwise.
  - It returns the empty-input message exactly when the text is all white
    space.

The master-theorem test compares floats. `a` is the number of calls, always
at least 2.

- `Math.abs(Math.log(a)/Math.log(2) - 1) < 0.01` becomes the integer
  predicate `a == 2`.
- `Narration.LogNearOneExact` proves that this predicate is
  `2^99 < a^100 < 2^101`, the float test raised to the hundredth power.
- `log2(a) > 1` becomes `a > 2`.
- The two-decimal rendering `toFixed(2)` is a parameter `log2Fixed`, so every
  line that shows it has the right shape whatever the rendering.

Three details of the source that the model keeps as written:

- The search blocks are pushed a second time after the recursion section
  (script.js:142-154; the source's comments call this redundant), linear
  search first, whenever the tests match. With loops and a recognized idiom,
  the block therefore appears twice. When both idioms match, the
  linear-search block also appears, after the first binary-search block
  (`NarrationFacts.SearchBlocksRepeat`).
- The empty-input message is `Please enter C code.` (script.js:42).
- The constant-time closing is two lines, `\n📦 No loops or recursion
  detected → O(1)` and `T(n) = C1` (script.js:157-158).

## Model

| member | source | states |
|---|---|---|
| Text.IsSpace | script.js:57 | the characters `trim()` removes and `\s` matches: the ECMAScript WhiteSpace and LineTerminator sets, all in the Basic Multilingual Plane |
| Text.IsWordChar | script.js:67 | `\w`: ASCII letters, digits and `_` |
| Text.TrimStart | script.js:57 | the result is no longer than the input and does not start with white space |
| Text.TrimStartIsSuffix | script.js:57 | what is left is a suffix of the input, and everything removed is white space |
| Text.TrimEnd | script.js:57 | the result is no longer than the input and does not end with white space |
| Text.TrimEndIsPrefix | script.js:57 | what is left is a prefix of the input, and everything removed is white space |
| Text.Trim | script.js:57 | `trim()` never lengthens its input |
| Text.TrimIsSlice | script.js:57 | `trim()` gives a contiguous slice of the input whose first and last characters are not white space, with only white space before and after it |
| Text.BlankIffAllSpace | script.js:41 | `!code.trim()` holds exactly when every character is white space |
| Text.Split | script.js:47 | `split("\n")` always yields at least one piece, and no piece holds a line feed |
| Text.JoinSplit | script.js:47 | joining the pieces of `split("\n")` with line feeds gives the text back |
| Text.SplitJoin | script.js:47 | lines without line feeds come back unchanged from join-then-split |
| Text.Join | script.js:161 | `steps.join("\n")`: the parts in order with one line feed between neighbours, the empty text for no parts |
| Text.JoinStartsWithFirst | script.js:161 | the joined output begins with the first line |
| Text.Decimal | script.js:92 | the template-literal rendering of a count is a non-empty digit string with no leading zero |
| Text.DecimalRoundTrip | script.js:92 | reading the rendered digits gives the count back |
| Text.DecimalInjective | script.js:93 | different counts render to different texts |
| Scanner.IsLoopLine | script.js:57-58 | a loop header: the trimmed line starts with `for` or `while` (so `format(x)` and `whileLoop` count too, as in the source) |
| Scanner.IsCloseLine | script.js:63 | a lone closing brace: the trimmed line is exactly `}` |
| Scanner.Step | script.js:57-63 | one pass of the `forEach` body: the loop test first, raising `loopCount`, `currentDepth` and, when passed, `loopDepth`; then the brace test on the same line, lowering `currentDepth` by one but not below 0 |
| Scanner.Scan | script.js:56-64 | the body applied to the lines in order, from the given counters |
| Scanner.Run | script.js:49-64 | the scan from `loopCount`, `currentDepth` and `loopDepth` all 0 (script.js:49, 50, 54) |
| Scanner.LoopAndCloseExclusive | script.js:58-63 | no line is both a loop header and a lone `}` |
| Scanner.StepEffects | script.js:56-64 | a loop header adds one to `loopCount` and `currentDepth`; a lone `}` lowers `currentDepth` by one (not below 0) and keeps `loopCount` and `loopDepth`; any other line changes nothing |
| Scanner.StepConsistent | script.js:58-63 | one line keeps `currentDepth <= loopDepth <= loopCount` and `loopDepth == 0 <==> loopCount == 0`, never lowers the count or the maximum, and a new maximum is the current depth |
| Scanner.RunConsistent | script.js:56-64 | those relations hold after any scan from zero |
| Scanner.ScanAppend | script.js:56 | scanning in two pieces is scanning the whole |
| Scanner.OtherLineIgnored | script.js:56-64 | removing a line that is neither a loop header nor a lone `}` leaves all three counters unchanged |
| Scanner.LoopCountIsLoopLines | script.js:58-59 | `loopCount` is the number of lines whose trimmed text starts with `for` or `while` |
| Scanner.LoopPositionsSnoc | script.js:58 | the loop headers of a text are those before its last line, plus the last line when it is one |
| Scanner.NoPointDeeper | script.js:60-63 | no prefix of the scan reaches a `currentDepth` above the final `loopDepth` |
| Scanner.DeepestPoint | script.js:60-61 | some prefix of the scan reaches exactly the final `loopDepth` |
| Scanner.LoopDepthIsRunningMaximum | script.js:56-64 | `loopDepth` is the maximum of `currentDepth` over all points of the scan |
| Scanner.ScanLines | script.js:56-64 | the `forEach` loop computes the counters of `Run`; `loopCount` is the number of loop headers; `loopDepth <= loopCount`; `loopDepth > 0` exactly when `loopCount > 0` |
| Recursion.WordEnd | script.js:67 | the end of the `\w` run lies between its start and the end of the text |
| Recursion.WordEndIsRunEnd | script.js:67 | `(\w+)` takes the whole run of word characters and cannot extend it |
| Recursion.SpacesEnd | script.js:67 | the end of the `\s*` run lies between its start and the end of the text |
| Recursion.SpacesEndIsRunEnd | script.js:67 | `\s*` takes the whole run of white space and cannot extend it |
| Recursion.IndexOf | script.js:67 | the position found holds the character, or is the end of the text |
| Recursion.IndexOfIsFirst | script.js:67 | `[^)]*` stops at the first `)`: no earlier position holds it |
| Recursion.DefinitionAt | script.js:67 | the definition pattern matches from start position `i`: backtracking can only succeed with the whole `\w` run (a shorter one is followed by a word character, neither `\s` nor `(`), the whole `\s` runs, and the first `)` after the `(` (`[^)]*` cannot pass a `)`); the greedy `([\s\S]*)}` then only needs some `}` after the `{` |
| Recursion.FindDefinition | script.js:67 | the definition pattern matches at the position returned |
| Recursion.FindDefinitionIsLeftmost | script.js:67 | it matches at no earlier position; with none returned, it matches nowhere |
| Recursion.FirstDefinition | script.js:67 | `code.match` without the `g` flag: the leftmost start position where the pattern matches, or none (`null`) |
| Recursion.NameAt | script.js:69 | `funcMatch[1]`: the run of word characters from the start of the match |
| Recursion.DefinitionExtendsLeft | script.js:67 | a match preceded by a word character also matches one position earlier |
| Recursion.FirstDefinitionIsWholeWord | script.js:67-68 | the first match starts a whole word, and the captured name is one or more word characters |
| Recursion.CallAt | script.js:70 | `name\s*\(` matches at `i`: the name literally, then any white space, then `(`; the name is a word, so building the pattern from it inserts no metacharacter |
| Recursion.CountCallsFrom | script.js:70 | the number of positions at or after `from` where `name\s*\(` matches |
| Recursion.CallCount | script.js:70 | the length of the global match array, 0 when there is no match (the empty-array fallback) |
| Recursion.CallsDoNotOverlap | script.js:70 | two matches of `name\s*\(` never overlap, so the global search counts every matching position |
| Recursion.CountIsPositions | script.js:70 | the match count is the number of positions where `name\s*\(` matches |
| Recursion.DetectRecursion | script.js:67-75 | a detected function has at least two calls and a word for a name |
| Recursion.NoDefinitionNoRecursion | script.js:68 | without a definition-shaped match, no recursion is reported |
| Recursion.RecursionMeansAnotherCall | script.js:67-75 | the definition itself is one counted match; recursion is reported exactly when the name is followed by `(` at another position; the recorded count is the number of matching positions |
| Narration.LineText | script.js:89-158 | the exact template literal of each `steps.push`, counts rendered in decimal and `b = 2`, `f = "n"` substituted (script.js:125-126) |
| Narration.SearchBlock | script.js:95-102 | the three lines of a search block: the pattern, `O(log n)` or `O(n)`, and its cost formula, the same for both passes (script.js:143-153) |
| Narration.DepthBound | script.js:104-113 | the bound read off the nesting depth: linear for 1, quadratic for 2, `n^d` otherwise |
| Narration.LoopSection | script.js:91-117 | with loops, the count, the nesting level and the complexity block; without, the no-loops line |
| Narration.ComplexityBlock | script.js:95-114 | the binary-search block if that test matched, else the linear-search block if that one did, else the depth bound and its formula |
| Narration.RecursionSummary | script.js:120-130 | the detected name, the call count, the assumed form and master-theorem steps 1-3, all with the one rendered logarithm |
| Narration.LogNearOne | script.js:132 | the float test `Math.abs(log2(a) - 1) < 0.01` on whole numbers: `a == 2` (equivalence in LogNearOneExact) |
| Narration.LogAboveOne | script.js:135 | the float test `log2(a) > 1` on whole numbers: `a > 2` |
| Narration.MasterConclusion | script.js:132-139 | case 2 and the `O(n log n)` line when log2(a) is near 1, else case 1 with the rendered logarithm when it is above 1, else case 3 |
| Narration.RecursionSection | script.js:119-140 | nothing without recursion; otherwise the summary then the conclusion, with `log2Fixed(a)` standing for `logba.toFixed(2)` |
| Narration.TrailingSection | script.js:142-154 | the linear-search block when that test matched, then the binary-search block when that one did |
| Narration.ClosingSection | script.js:156-159 | the two constant-time lines exactly when `loopCount` is 0 and no recursion was detected |
| Narration.Plan | script.js:89-159 | the start marker, then the loop, recursion, trailing and closing sections, in the order of the pushes |
| Narration.Render | script.js:89-159 | one text per line |
| Narration.RenderAppend | script.js:89-159 | rendering distributes over concatenation, in order |
| Narration.LogNearOneExact | script.js:132 | the integer test `a == 2` is the float test (log2 a within 0.01 of 1) raised to the hundredth power: `2^99 < a^100 < 2^101` |
| Narration.ThreeOutgrowsTwo | script.js:132 | `3^100 > 2^101`, so no count of three or more passes the float test |
| Narration.Narrate | script.js:89-159 | the texts pushed onto `steps` are exactly the rendered plan |
| Narration.NarrateLoops | script.js:91-117 | the loop section pushes exactly the rendered header and complexity block, or the no-loops line |
| Narration.NarrateComplexity | script.js:95-115 | the first complexity block pushes exactly the rendered binary-search, linear-search or depth block |
| Narration.NarrateRecursion | script.js:119-140 | the recursion section pushes exactly the rendered summary and master-theorem lines, and nothing without recursion |
| Narration.NarrateSummary | script.js:120-130 | the summary pushes the function name, the call count, the assumed form and the first three master-theorem steps |
| Narration.NarrateMasterCase | script.js:132-139 | the master-theorem case pushes exactly the rendered conclusion for `a` |
| Narration.NarrateSearchesAgain | script.js:142-154 | the second pass pushes the linear-search block, then the binary-search block, each when its test matched |
| Narration.NarrateClosing | script.js:156-159 | the closing pushes exactly the rendered constant-time lines |
| NarrationFacts.OpensWithStartMarker | script.js:89 | the first text is always `🔍 Code Analysis Started` |
| NarrationFacts.PlanSplit | script.js:89-159 | the plan is the start marker, then the loop section, then the rest |
| NarrationFacts.LoopHeader | script.js:91-116 | with loops, texts two and three state the loop count and the nesting level; without, text two is `❌ No loops detected` |
| NarrationFacts.OneLevelOutput | script.js:103-106 | with loops, no recognized idiom and nesting level 1, texts four and five are `➡️ Time Complexity: O(n)` and `\nT(n) = C1 + C2·n` |
| NarrationFacts.TwoLevelOutput | script.js:107-109 | with nesting level 2 instead, they are `➡️ Time Complexity: O(n²)` and `\nT(n) = C1 + C2·n + C3·n²` |
| NarrationFacts.DeepLevelOutput | script.js:110-113 | with nesting level `d >= 3`, they state `O(n^d)` and the formula with terms up to `C(d+1)·n^d`, the numbers in decimal |
| NarrationFacts.FirstComplexityBlock | script.js:95-115 | with loops, the block after the header is binary search if recognized, else linear search if recognized, else the bound for the nesting depth |
| NarrationFacts.InPlan | script.js:89-159 | a line is in the plan exactly when it is the start marker or in one of the sections |
| NarrationFacts.CaseLinesOutsideRecursion | script.js:91-159 | the loop, trailing and closing sections hold no master-theorem case line |
| NarrationFacts.CaseLinesOnlyInRecursion | script.js:132-139 | a master-theorem case line occurs in the output exactly when it is the detected function's conclusion |
| NarrationFacts.MasterCaseByCalls | script.js:132-139 | case 3 never occurs; with recursion of `a` calls, case 2 and `O(n log n)` occur exactly when `a = 2` and case 1 exactly when `a >= 3`; without recursion, no case line occurs |
| NarrationFacts.SearchBlockNames | script.js:95-103 | a search block names its own idiom once and the other one never |
| NarrationFacts.LoopSectionSearches | script.js:95-103 | the loop section names binary search once when it is recognized and there are loops, and linear search once when only it is recognized and there are loops |
| NarrationFacts.TrailingSectionSearches | script.js:142-154 | the second pass names each recognized idiom once |
| NarrationFacts.OtherSectionsNoSearch | script.js:119-159 | the recursion and closing sections never name a search idiom |
| NarrationFacts.CountConcat | script.js:89-159 | the occurrences of a line across the consecutive sections add up |
| NarrationFacts.SearchCount | script.js:95-154 | the search idioms are named only in the loop section and the second pass |
| NarrationFacts.SearchBlocksRepeat | script.js:95-154 | a recognized idiom is narrated twice when there are loops (linear only if binary is not recognized) and once otherwise; an unrecognized one never |
| NarrationFacts.ConstantFormulaTextIsUnique | script.js:158 | only the closing formula line renders as `T(n) = C1` |
| NarrationFacts.ConstantFormulaOutsideClosing | script.js:91-154 | the loop, recursion and trailing sections hold no closing formula line |
| NarrationFacts.ConstantFormulaOnlyInClosing | script.js:156-159 | the closing formula line is in the plan exactly when there are no loops and no recursion |
| NarrationFacts.RenderedConstantFormula | script.js:158 | `T(n) = C1` is among the rendered texts exactly when the closing formula line is in the plan |
| NarrationFacts.ConstantTimeClosing | script.js:156-159 | `T(n) = C1` is in the output exactly when there are no loops and no recursion |
| NarrationFacts.ClosingLinesLast | script.js:156-159 | with no loops and no recursion, the plan ends with the two closing lines |
| NarrationFacts.ConstantTimeLast | script.js:156-159 | with no loops and no recursion, the output ends with `📦 No loops or recursion detected → O(1)` and `T(n) = C1` |
| NarrationFacts.RenderEndsWith | script.js:161 | the last two texts are those of the last two lines |
| NarrationFacts.EndsWithMasterConclusion | script.js:132-139 | with recursion and no recognized idiom, the last text is `O(n log n)` for two calls and case 1 with the rendered logarithm for more |
| Analyzer.Analysis | script.js:37-163 | the displayed text: `Please enter C code.` (script.js:42) when `code.trim()` is empty, otherwise the planned lines rendered and joined with line feeds |
| Analyzer.SignalsOf | script.js:47-75 | the signals are well formed, the loop count is the number of loop headers, and the recursion is what the detector reports |
| Analyzer.AnalyzeCode | script.js:37-163 | the displayed text is the empty-input message for a blank text, otherwise the narration joined with line feeds; it is the empty-input message exactly when the text is all white space |
| Analyzer.NonBlankStartsWithMarker | script.js:89 | a text that is not all white space yields output that begins with the start marker |
| Analyzer.BlankMessageIffBlank | script.js:41-45 | the output is `Please enter C code.` exactly when the text is all white space |
| Analyzer.OtherLineChangesNothing | script.js:47-64 | deleting a line that neither opens a loop nor is a lone `}` leaves the loop count and nesting depth unchanged |

## Left out

- DOM access (script.js:1-35, 38, 42, 161) is not modelled: the `innerText` read becomes the `code` parameter and the `textContent` write becomes the result. The sample-code loader and scroll synchronisation are left out too.
- Prism highlighting (script.js:7, 43, 162) is left out. It is a foreign library call that does not change the output text.
- The six search-pattern regular expressions (script.js:78-87) are left out. `isBinarySearch` and `isLinearSearch` are boolean inputs.
- `Math.log` and `toFixed(2)` (script.js:128-136) are left out as floating point. The rendered logarithm is the parameter `log2Fixed`. The case split is exact integer arithmetic, proved equivalent to the float comparison.
- Narration.LogNearOneExact: proves the equivalence for the float test read exactly on the reals. Rounding in `Math.log` is not modelled.
- Strings are sequences of Unicode code points. JavaScript strings are UTF-16 code units, so a character outside the Basic Multilingual Plane counts as one character here and two there. That affects no comparison in the scan or the regular expressions: every character they look for is in the Basic Multilingual Plane.
- The captured function body `([\s\S]*)` is not kept. Only whether the definition pattern matches matters, and it matches exactly when some `}` follows the `{`.
