/** The narration of `analyzeCode`: a fixed decision tree from the analysis
    signals to the ordered list of lines it pushes onto `steps`. */
module Narration {
  import opened Wrappers
  import opened Text
  import opened Recursion

  /** What the analysis found in the text. */
  datatype Signals = Signals(
    loopCount: nat,
    loopDepth: nat,
    recursion: Option<RecursiveFunction>,
    isBinarySearch: bool,
    isLinearSearch: bool)

  /** What the scanner and the detector guarantee of the signals they build:
      the deepest nesting is at most the number of loops and is zero exactly
      when there are none, and a detected function has at least two calls. */
  predicate WellFormed(sig: Signals) {
    && sig.loopDepth <= sig.loopCount
    && (sig.loopDepth == 0 <==> sig.loopCount == 0)
    && (sig.recursion.Some? ==> sig.recursion.value.calls >= 2)
  }

  /** The growth rates the narration can state. */
  datatype Bound = Logarithmic | Linear | Quadratic | Polynomial(degree: nat)

  /** The two search idioms the analyzer recognizes. */
  datatype Search = BinarySearch | LinearSearch

  /** One narration line, before rendering. */
  datatype Line =
    | Started
    | LoopsDetected(count: nat)
    | NestingLevel(depth: nat)
    | PatternDetected(search: Search)
    | Complexity(bound: Bound)
    | CostFormula(bound: Bound)
    | NoLoops
    | RecursiveFunctionDetected(name: string)
    | RecursiveCalls(calls: nat)
    | DivideAndConquerForm
    | MasterSubstitution(a: nat)
    | MasterLogarithm(a: nat, log: string)
    | MasterComparison(log: string)
    | MasterCase2
    | FinalNLogN
    | MasterCase1(log: string)
    | MasterCase3
    | ConstantTime
    | ConstantFormula

  /** The fixed divisor `b` and driving function `f(n)` of the master theorem. */
  const B: nat := 2
  const F: string := "n"

  function BoundText(b: Bound): string {
    match b
    case Logarithmic => "O(log n)"
    case Linear => "O(n)"
    case Quadratic => "O(n²)"
    case Polynomial(d) => "O(n^" + Decimal(d) + ")"
  }

  function FormulaText(b: Bound): string {
    match b
    case Logarithmic => "\nT(n) = C1 + C2·log₂(n)"
    case Linear => "\nT(n) = C1 + C2·n"
    case Quadratic => "\nT(n) = C1 + C2·n + C3·n²"
    case Polynomial(d) => "\nT(n) = C1 + C2·n + ... + C" + Decimal(d + 1) + "·n^" + Decimal(d)
  }

  function SearchName(k: Search): string {
    match k
    case BinarySearch => "Binary Search"
    case LinearSearch => "Linear Search"
  }

  /** The text `analyzeCode` pushes for a line. */
  function LineText(line: Line): string {
    match line
    case Started => "🔍 Code Analysis Started"
    case LoopsDetected(n) => "\n➡️ Detected " + Decimal(n) + " loop(s)"
    case NestingLevel(d) => "➡️ Loop nesting level: " + Decimal(d)
    case PatternDetected(k) => "\n🔎 Detected pattern of " + SearchName(k)
    case Complexity(b) => "➡️ Time Complexity: " + BoundText(b)
    case CostFormula(b) => FormulaText(b)
    case NoLoops => "\n❌ No loops detected"
    case RecursiveFunctionDetected(name) => "\n🔁 Recursive function detected: " + name
    case RecursiveCalls(a) => "➡️ Recursive calls: " + Decimal(a)
    case DivideAndConquerForm => "➡️ Assuming divide-and-conquer form: T(n) = a·T(n/b) + f(n)"
    case MasterSubstitution(a) => "\nStep 1: T(n) = " + Decimal(a) + "·T(n/" + Decimal(B) + ") + C·" + F
    case MasterLogarithm(a, log) => "Step 2: log_b(a) = log_" + Decimal(B) + "(" + Decimal(a) + ") = " + log
    case MasterComparison(log) => "Step 3: Compare f(n) = Θ(" + F + ") to n^log_b(a) = Θ(n^" + log + ")"
    case MasterCase2 => "→ Case 2: f(n) = Θ(n^log_b(a)) ⇒ T(n) = Θ(n log n)"
    case FinalNLogN => "\n🟢 Final Time Complexity: O(n log n)"
    case MasterCase1(log) => "→ Case 1: T(n) = Θ(n^" + log + ")"
    case MasterCase3 => "→ Case 3: T(n) = Θ(n)"
    case ConstantTime => "\n📦 No loops or recursion detected → O(1)"
    case ConstantFormula => "T(n) = C1"
  }

  /** The rendered lines, in order. */
  function Render(lines: seq<Line>): (r: seq<string>)
    ensures |r| == |lines|
  {
    seq(|lines|, k requires 0 <= k < |lines| => LineText(lines[k]))
  }

  lemma RenderAppend(a: seq<Line>, b: seq<Line>)
    ensures Render(a + b) == Render(a) + Render(b)
  {
    assert Render(a + b) == Render(a) + Render(b);
  }

  function Pow(x: nat, n: nat): nat {
    if n == 0 then 1 else x * Pow(x, n - 1)
  }

  /** `Math.abs(log2(a) - 1) < 0.01` for a whole number of calls `a`. On the
      reals this is `2^0.99 < a < 2^1.01`; the only whole number in that range
      is 2 (see LogNearOneExact). */
  predicate LogNearOne(a: nat) {
    a == B
  }

  /** `log2(a) > 1`, that is `a > 2`. */
  predicate LogAboveOne(a: nat) {
    a > B
  }

  /** Products of naturals grow with both factors. */
  lemma MulMonotonic(a: nat, b: nat, c: nat, d: nat)
    requires a <= c && b <= d
    ensures a * b <= c * d
  {
    assert a * b <= c * b;
    assert c * b <= c * d;
  }

  /** A larger base gives a larger power. */
  lemma {:induction false} PowMonotonic(x: nat, y: nat, n: nat)
    requires x <= y
    ensures Pow(x, n) <= Pow(y, n)
  {
    if n > 0 {
      PowMonotonic(x, y, n - 1);
      MulMonotonic(x, Pow(x, n - 1), y, Pow(y, n - 1));
    }
  }

  /** A positive base has a positive power. */
  lemma {:induction false} PowPositive(x: nat, n: nat)
    requires x >= 1
    ensures Pow(x, n) >= 1
  {
    if n > 0 {
      PowPositive(x, n - 1);
      MulMonotonic(1, 1, x, Pow(x, n - 1));
    }
  }

  /** Exponents add. */
  lemma {:induction false} PowAdd(x: nat, m: nat, n: nat)
    ensures Pow(x, m + n) == Pow(x, m) * Pow(x, n)
  {
    if m > 0 {
      PowAdd(x, m - 1, n);
      assert Pow(x, m + n) == x * Pow(x, m - 1 + n);
    }
  }

  /** A power of a power multiplies the exponents. */
  lemma {:induction false} PowOfPow(x: nat, m: nat, n: nat)
    ensures Pow(Pow(x, m), n) == Pow(x, m * n)
  {
    if n > 0 {
      PowOfPow(x, m, n - 1);
      PowAdd(x, m, m * (n - 1));
      assert m * n == m + m * (n - 1);
    }
  }

  /** For base two, a larger exponent gives a larger power. */
  lemma PowTwoMonotonic(m: nat, n: nat)
    requires m <= n
    ensures Pow(2, m) <= Pow(2, n)
  {
    PowAdd(2, m, n - m);
    PowPositive(2, n - m);
    PowPositive(2, m);
    MulMonotonic(Pow(2, m), 1, Pow(2, m), Pow(2, n - m));
  }

  /** `3^100 > 2^101`: from `3^2 = 9 > 8 = 2^3`, so `3^100 = 9^50 >= 8^50 = 2^150`. */
  lemma ThreeOutgrowsTwo()
    ensures Pow(3, 100) > Pow(2, 101)
  {
    PowOfPow(3, 2, 50);
    PowOfPow(2, 3, 50);
    assert Pow(3, 2) == 9 && Pow(2, 3) == 8;
    PowMonotonic(8, 9, 50);
    PowTwoMonotonic(102, 150);
    assert Pow(2, 102) == 2 * Pow(2, 101);
    PowPositive(2, 101);
  }

  /** The integer test is the float test: `|log2(a) - 1| < 0.01`, raised to
      the hundredth power, reads `2^99 < a^100 < 2^101`. */
  lemma LogNearOneExact(a: nat)
    ensures LogNearOne(a) <==> Pow(2, 99) < Pow(a, 100) < Pow(2, 101)
  {
    PowPositive(2, 99);
    if a <= 1 {
      PowMonotonic(a, 1, 100);
      assert Pow(1, 100) <= 1 by { PowOfPow(1, 0, 100); }
    } else if a == 2 {
      assert Pow(2, 100) == 2 * Pow(2, 99);
      assert Pow(2, 101) == 2 * Pow(2, 100);
    } else {
      PowMonotonic(3, a, 100);
      ThreeOutgrowsTwo();
    }
  }

  /** The three lines for a recognized search idiom. */
  function SearchBlock(k: Search): seq<Line> {
    var b := if k == BinarySearch then Logarithmic else Linear;
    [PatternDetected(k), Complexity(b), CostFormula(b)]
  }

  /** The bound stated from the nesting depth alone. */
  function DepthBound(d: nat): Bound {
    if d == 1 then Linear else if d == 2 then Quadratic else Polynomial(d)
  }

  /** script.js:91-117: loop count and nesting, then the first complexity
      block; or "no loops". */
  function LoopSection(sig: Signals): seq<Line> {
    if sig.loopCount > 0 then
      [LoopsDetected(sig.loopCount), NestingLevel(sig.loopDepth)] + ComplexityBlock(sig)
    else [NoLoops]
  }

  /** script.js:95-115: binary search before linear search before the bound
      read off the nesting depth. */
  function ComplexityBlock(sig: Signals): seq<Line> {
    if sig.isBinarySearch then SearchBlock(BinarySearch)
    else if sig.isLinearSearch then SearchBlock(LinearSearch)
    else [Complexity(DepthBound(sig.loopDepth)), CostFormula(DepthBound(sig.loopDepth))]
  }

  /** script.js:132-139: the master-theorem case for `a` calls. */
  function MasterConclusion(a: nat, log: string): seq<Line> {
    if LogNearOne(a) then [MasterCase2, FinalNLogN]
    else if LogAboveOne(a) then [MasterCase1(log)]
    else [MasterCase3]
  }

  /** script.js:119-140: the recursion summary and the master-theorem steps.
      `log2Fixed(a)` stands for `(Math.log(a) / Math.log(2)).toFixed(2)`. */
  function RecursionSection(sig: Signals, log2Fixed: nat -> string): seq<Line> {
    match sig.recursion
    case None => []
    case Some(f) =>
      var log := log2Fixed(f.calls);
      RecursionSummary(f, log) + MasterConclusion(f.calls, log)
  }

  /** script.js:120-130: the summary of the detected function and the first
      three master-theorem steps, `log` being the rendered logarithm. */
  function RecursionSummary(f: RecursiveFunction, log: string): seq<Line> {
    var a := f.calls;
    [RecursiveFunctionDetected(f.name), RecursiveCalls(a), DivideAndConquerForm,
     MasterSubstitution(a), MasterLogarithm(a, log), MasterComparison(log)]
  }

  /** script.js:142-154: the search blocks once more, linear then binary. */
  function TrailingSection(sig: Signals): seq<Line> {
    (if sig.isLinearSearch then SearchBlock(LinearSearch) else [])
    + (if sig.isBinarySearch then SearchBlock(BinarySearch) else [])
  }

  /** script.js:156-159: the constant-time closing. */
  function ClosingSection(sig: Signals): seq<Line> {
    if sig.loopCount == 0 && sig.recursion.None? then [ConstantTime, ConstantFormula] else []
  }

  /** Every line `analyzeCode` pushes, in order. */
  function Plan(sig: Signals, log2Fixed: nat -> string): seq<Line> {
    [Started] + LoopSection(sig) + RecursionSection(sig, log2Fixed)
    + TrailingSection(sig) + ClosingSection(sig)
  }

  /** The narration as `analyzeCode` builds it, section by section. */
  method Narrate(sig: Signals, log2Fixed: nat -> string) returns (steps: seq<string>)
    ensures steps == Render(Plan(sig, log2Fixed))
  {
    steps := [LineText(Started)];
    assert steps == Render([Started]);
    steps := NarrateLoops(sig, steps);
    steps := NarrateRecursion(sig, log2Fixed, steps);
    steps := NarrateSearchesAgain(sig, steps);
    steps := NarrateClosing(sig, steps);
    var p1 := [Started] + LoopSection(sig);
    var p2 := p1 + RecursionSection(sig, log2Fixed);
    var p3 := p2 + TrailingSection(sig);
    RenderAppend([Started], LoopSection(sig));
    RenderAppend(p1, RecursionSection(sig, log2Fixed));
    RenderAppend(p2, TrailingSection(sig));
    RenderAppend(p3, ClosingSection(sig));
  }

  /** script.js:91-117, pushed onto `steps`. */
  method NarrateLoops(sig: Signals, steps: seq<string>) returns (steps': seq<string>)
    ensures steps' == steps + Render(LoopSection(sig))
  {
    steps' := steps;
    if sig.loopCount > 0 {
      steps' := steps' + [LineText(LoopsDetected(sig.loopCount))];
      steps' := steps' + [LineText(NestingLevel(sig.loopDepth))];
      ghost var header := [LoopsDetected(sig.loopCount), NestingLevel(sig.loopDepth)];
      assert steps' == steps + Render(header);
      steps' := NarrateComplexity(sig, steps');
      RenderAppend(header, ComplexityBlock(sig));
    } else {
      steps' := steps' + [LineText(NoLoops)];
      assert steps' == steps + Render([NoLoops]);
    }
  }

  /** script.js:95-115, pushed onto `steps`. */
  method NarrateComplexity(sig: Signals, steps: seq<string>) returns (steps': seq<string>)
    ensures steps' == steps + Render(ComplexityBlock(sig))
  {
    steps' := steps;
    if sig.isBinarySearch {
      steps' := steps' + [LineText(PatternDetected(BinarySearch))];
      steps' := steps' + [LineText(Complexity(Logarithmic))];
      steps' := steps' + [LineText(CostFormula(Logarithmic))];
      assert steps' == steps + Render(SearchBlock(BinarySearch));
    } else if sig.isLinearSearch {
      steps' := steps' + [LineText(PatternDetected(LinearSearch))];
      steps' := steps' + [LineText(Complexity(Linear))];
      steps' := steps' + [LineText(CostFormula(Linear))];
      assert steps' == steps + Render(SearchBlock(LinearSearch));
    } else {
      if sig.loopDepth == 1 {
        steps' := steps' + [LineText(Complexity(Linear))];
        steps' := steps' + [LineText(CostFormula(Linear))];
      } else if sig.loopDepth == 2 {
        steps' := steps' + [LineText(Complexity(Quadratic))];
        steps' := steps' + [LineText(CostFormula(Quadratic))];
      } else {
        steps' := steps' + [LineText(Complexity(Polynomial(sig.loopDepth)))];
        steps' := steps' + [LineText(CostFormula(Polynomial(sig.loopDepth)))];
      }
      var b := DepthBound(sig.loopDepth);
      assert steps' == steps + Render([Complexity(b), CostFormula(b)]);
    }
  }

  /** script.js:119-140, pushed onto `steps`. */
  method NarrateRecursion(sig: Signals, log2Fixed: nat -> string, steps: seq<string>) returns (steps': seq<string>)
    ensures steps' == steps + Render(RecursionSection(sig, log2Fixed))
  {
    steps' := steps;
    if sig.recursion.Some? {
      var f := sig.recursion.value;
      var logba := log2Fixed(f.calls);
      steps' := NarrateSummary(f, logba, steps');
      steps' := NarrateMasterCase(f.calls, logba, steps');
      RenderAppend(RecursionSummary(f, logba), MasterConclusion(f.calls, logba));
    }
  }

  /** script.js:120-130, pushed onto `steps`. */
  method NarrateSummary(f: RecursiveFunction, logba: string, steps: seq<string>) returns (steps': seq<string>)
    ensures steps' == steps + Render(RecursionSummary(f, logba))
  {
    steps' := steps;
    steps' := steps' + [LineText(RecursiveFunctionDetected(f.name))];
    steps' := steps' + [LineText(RecursiveCalls(f.calls))];
    steps' := steps' + [LineText(DivideAndConquerForm)];
    var a := f.calls;
    steps' := steps' + [LineText(MasterSubstitution(a))];
    steps' := steps' + [LineText(MasterLogarithm(a, logba))];
    steps' := steps' + [LineText(MasterComparison(logba))];
    assert steps' == steps + Render(RecursionSummary(f, logba));
  }

  /** script.js:132-139, pushed onto `steps`. */
  method NarrateMasterCase(a: nat, logba: string, steps: seq<string>) returns (steps': seq<string>)
    ensures steps' == steps + Render(MasterConclusion(a, logba))
  {
    steps' := steps;
    if LogNearOne(a) {
      steps' := steps' + [LineText(MasterCase2)];
      steps' := steps' + [LineText(FinalNLogN)];
      assert steps' == steps + Render([MasterCase2, FinalNLogN]);
    } else if LogAboveOne(a) {
      steps' := steps' + [LineText(MasterCase1(logba))];
      assert steps' == steps + Render([MasterCase1(logba)]);
    } else {
      steps' := steps' + [LineText(MasterCase3)];
      assert steps' == steps + Render([MasterCase3]);
    }
  }

  /** script.js:142-154, pushed onto `steps`. */
  method NarrateSearchesAgain(sig: Signals, steps: seq<string>) returns (steps': seq<string>)
    ensures steps' == steps + Render(TrailingSection(sig))
  {
    steps' := steps;
    ghost var pushed: seq<Line> := [];
    if sig.isLinearSearch {
      steps' := steps' + [LineText(PatternDetected(LinearSearch))];
      steps' := steps' + [LineText(Complexity(Linear))];
      steps' := steps' + [LineText(CostFormula(Linear))];
      pushed := pushed + SearchBlock(LinearSearch);
    }
    if sig.isBinarySearch {
      steps' := steps' + [LineText(PatternDetected(BinarySearch))];
      steps' := steps' + [LineText(Complexity(Logarithmic))];
      steps' := steps' + [LineText(CostFormula(Logarithmic))];
      pushed := pushed + SearchBlock(BinarySearch);
    }
    assert pushed == TrailingSection(sig);
    assert steps' == steps + Render(pushed);
  }

  /** script.js:156-159, pushed onto `steps`. */
  method NarrateClosing(sig: Signals, steps: seq<string>) returns (steps': seq<string>)
    ensures steps' == steps + Render(ClosingSection(sig))
  {
    steps' := steps;
    if sig.loopCount == 0 && sig.recursion.None? {
      steps' := steps' + [LineText(ConstantTime)];
      steps' := steps' + [LineText(ConstantFormula)];
      assert steps' == steps + Render([ConstantTime, ConstantFormula]);
    } else {
      assert ClosingSection(sig) == [];
    }
  }
}

/** What the narration promises, stated line by line. */
module NarrationFacts {
  import opened Wrappers
  import opened Text
  import opened Recursion
  import opened Narration

  /** The output always opens with the start marker. */
  lemma OpensWithStartMarker(sig: Signals, log2Fixed: nat -> string)
    ensures |Render(Plan(sig, log2Fixed))| >= 1
    ensures Render(Plan(sig, log2Fixed))[0] == "🔍 Code Analysis Started"
  {
  }

  /** The plan is the start marker, the loop section, then the rest. */
  lemma PlanSplit(sig: Signals, log2Fixed: nat -> string)
    ensures Plan(sig, log2Fixed) ==
      [Started] + LoopSection(sig)
      + (RecursionSection(sig, log2Fixed) + TrailingSection(sig) + ClosingSection(sig))
  {
  }

  /** With loops, lines two and three report the loop count and nesting
      level; without, line two says there are none. */
  lemma LoopHeader(sig: Signals, log2Fixed: nat -> string)
    ensures var out := Render(Plan(sig, log2Fixed));
            if sig.loopCount > 0 then
              |out| >= 3
              && out[1] == "\n➡️ Detected " + Decimal(sig.loopCount) + " loop(s)"
              && out[2] == "➡️ Loop nesting level: " + Decimal(sig.loopDepth)
            else
              |out| >= 2 && out[1] == "\n❌ No loops detected"
  {
    PlanSplit(sig, log2Fixed);
  }

  /** The texts of the depth fallback for one level: linear. */
  lemma OneLevelTexts()
    ensures LineText(Complexity(DepthBound(1))) == "➡️ Time Complexity: O(n)"
    ensures LineText(CostFormula(DepthBound(1))) == "\nT(n) = C1 + C2·n"
  {
  }

  /** The texts of the depth fallback for two levels: quadratic. */
  lemma TwoLevelTexts()
    ensures LineText(Complexity(DepthBound(2))) == "➡️ Time Complexity: O(n²)"
    ensures LineText(CostFormula(DepthBound(2))) == "\nT(n) = C1 + C2·n + C3·n²"
  {
  }

  /** The texts of the depth fallback beyond two levels: `n^d`, with terms
      up to `C(d+1)`. */
  lemma DeepLevelTexts(d: nat)
    requires d >= 3
    ensures LineText(Complexity(DepthBound(d))) == "➡️ Time Complexity: O(n^" + Decimal(d) + ")"
    ensures LineText(CostFormula(DepthBound(d)))
              == "\nT(n) = C1 + C2·n + ... + C" + Decimal(d + 1) + "·n^" + Decimal(d)
  {
  }

  /** With loops, the first complexity block follows the header: binary
      search takes precedence over linear search, which takes precedence
      over the bound read off the nesting depth. */
  lemma FirstComplexityBlock(sig: Signals, log2Fixed: nat -> string)
    requires WellFormed(sig) && sig.loopCount > 0
    ensures var p := Plan(sig, log2Fixed);
            && |p| >= 5
            && (sig.isBinarySearch ==> |p| >= 6 && p[3..6] == SearchBlock(BinarySearch))
            && (!sig.isBinarySearch && sig.isLinearSearch ==>
                  |p| >= 6 && p[3..6] == SearchBlock(LinearSearch))
            && (!sig.isBinarySearch && !sig.isLinearSearch ==>
                  && sig.loopDepth >= 1
                  && p[3] == Complexity(DepthBound(sig.loopDepth))
                  && p[4] == CostFormula(DepthBound(sig.loopDepth)))
  {
    PlanSplit(sig, log2Fixed);
    var p := Plan(sig, log2Fixed);
    var head := [Started] + LoopSection(sig);
    if sig.isBinarySearch || sig.isLinearSearch {
      assert |head| == 6;
      assert p[3..6] == head[3..6];
    } else {
      assert |head| == 5;
      assert p[3] == head[3] && p[4] == head[4];
    }
  }

  /** With loops, no recognized idiom and one level of nesting, texts four
      and five state the linear bound and its cost formula. */
  lemma OneLevelOutput(sig: Signals, log2Fixed: nat -> string)
    requires WellFormed(sig) && sig.loopCount > 0 && !sig.isBinarySearch && !sig.isLinearSearch
    requires sig.loopDepth == 1
    ensures var out := Render(Plan(sig, log2Fixed));
            && |out| >= 5
            && out[3] == "➡️ Time Complexity: O(n)"
            && out[4] == "\nT(n) = C1 + C2·n"
  {
    FirstComplexityBlock(sig, log2Fixed);
    OneLevelTexts();
  }

  /** The same for two levels: the quadratic bound. */
  lemma TwoLevelOutput(sig: Signals, log2Fixed: nat -> string)
    requires WellFormed(sig) && sig.loopCount > 0 && !sig.isBinarySearch && !sig.isLinearSearch
    requires sig.loopDepth == 2
    ensures var out := Render(Plan(sig, log2Fixed));
            && |out| >= 5
            && out[3] == "➡️ Time Complexity: O(n²)"
            && out[4] == "\nT(n) = C1 + C2·n + C3·n²"
  {
    FirstComplexityBlock(sig, log2Fixed);
    TwoLevelTexts();
  }

  /** The same for three levels or more: `n^d`, with terms up to `C(d+1)`. */
  lemma DeepLevelOutput(sig: Signals, log2Fixed: nat -> string)
    requires WellFormed(sig) && sig.loopCount > 0 && !sig.isBinarySearch && !sig.isLinearSearch
    requires sig.loopDepth >= 3
    ensures var out := Render(Plan(sig, log2Fixed));
            var d := sig.loopDepth;
            && |out| >= 5
            && out[3] == "➡️ Time Complexity: O(n^" + Decimal(d) + ")"
            && out[4] == "\nT(n) = C1 + C2·n + ... + C" + Decimal(d + 1) + "·n^" + Decimal(d)
  {
    FirstComplexityBlock(sig, log2Fixed);
    DeepLevelTexts(sig.loopDepth);
  }

  /** The lines that state a master-theorem case. */
  predicate IsCaseLine(l: Line) {
    l.MasterCase2? || l.FinalNLogN? || l.MasterCase1? || l.MasterCase3?
  }

  /** A line is in the plan exactly when it is the start marker or in one
      of the sections. */
  lemma InPlan(sig: Signals, log2Fixed: nat -> string, l: Line)
    ensures l in Plan(sig, log2Fixed) <==>
              || l == Started || l in LoopSection(sig) || l in RecursionSection(sig, log2Fixed)
              || l in TrailingSection(sig) || l in ClosingSection(sig)
  {
    InConcat([Started], LoopSection(sig), RecursionSection(sig, log2Fixed), TrailingSection(sig),
             ClosingSection(sig), l);
  }

  /** Membership in five concatenated pieces. */
  lemma InConcat(a: seq<Line>, b: seq<Line>, c: seq<Line>, d: seq<Line>, e: seq<Line>, x: Line)
    ensures x in a + b + c + d + e <==> x in a || x in b || x in c || x in d || x in e
  {
  }

  /** No section but the recursion section holds a case line. */
  lemma CaseLinesOutsideRecursion(sig: Signals)
    ensures forall x :: x in LoopSection(sig) ==> !IsCaseLine(x)
    ensures forall x :: x in TrailingSection(sig) ==> !IsCaseLine(x)
    ensures forall x :: x in ClosingSection(sig) ==> !IsCaseLine(x)
  {
  }

  /** Case lines come from the recursion section only. */
  lemma CaseLinesOnlyInRecursion(sig: Signals, log2Fixed: nat -> string, l: Line)
    requires IsCaseLine(l)
    ensures l in Plan(sig, log2Fixed) <==> l in MasterConclusions(sig, log2Fixed)
  {
    InPlan(sig, log2Fixed, l);
    CaseLinesOutsideRecursion(sig);
    match sig.recursion
    case None =>
    case Some(f) =>
      var log := log2Fixed(f.calls);
      assert forall x :: x in RecursionSummary(f, log) ==> !IsCaseLine(x);
      assert RecursionSection(sig, log2Fixed) == RecursionSummary(f, log) + MasterConclusion(f.calls, log);
  }

  /** The case lines the plan can hold: those of the detected function. */
  function MasterConclusions(sig: Signals, log2Fixed: nat -> string): seq<Line> {
    match sig.recursion
    case None => []
    case Some(f) => MasterConclusion(f.calls, log2Fixed(f.calls))
  }

  /** The master-theorem case depends only on the number of calls `a`
      (at least two): case 2, `n log n`, exactly when `a = 2`; case 1 exactly
      when `a >= 3`; case 3 never. */
  lemma MasterCaseByCalls(sig: Signals, log2Fixed: nat -> string)
    requires WellFormed(sig)
    ensures var p := Plan(sig, log2Fixed);
            && MasterCase3 !in p
            && (sig.recursion.None? ==> MasterCase2 !in p && FinalNLogN !in p)
            && (sig.recursion.Some? ==>
                  var a := sig.recursion.value.calls;
                  && (MasterCase2 in p <==> a == 2)
                  && (FinalNLogN in p <==> a == 2)
                  && (MasterCase1(log2Fixed(a)) in p <==> a >= 3))
  {
    CaseLinesOnlyInRecursion(sig, log2Fixed, MasterCase3);
    CaseLinesOnlyInRecursion(sig, log2Fixed, MasterCase2);
    CaseLinesOnlyInRecursion(sig, log2Fixed, FinalNLogN);
    var mc := MasterConclusions(sig, log2Fixed);
    if sig.recursion.Some? {
      var a := sig.recursion.value.calls;
      var log := log2Fixed(a);
      CaseLinesOnlyInRecursion(sig, log2Fixed, MasterCase1(log));
      if a == 2 {
        assert mc == [MasterCase2, FinalNLogN];
      } else {
        assert mc == [MasterCase1(log)];
      }
    } else {
      assert mc == [];
    }
  }

  /** How often the loop section names each search idiom. */
  lemma LoopSectionSearches(sig: Signals)
    ensures var m := multiset(LoopSection(sig));
            && m[PatternDetected(BinarySearch)] == (if sig.isBinarySearch && sig.loopCount > 0 then 1 else 0)
            && m[PatternDetected(LinearSearch)]
                 == (if sig.isLinearSearch && !sig.isBinarySearch && sig.loopCount > 0 then 1 else 0)
  {
    if sig.loopCount > 0 {
      var header := [LoopsDetected(sig.loopCount), NestingLevel(sig.loopDepth)];
      assert multiset(LoopSection(sig)) == multiset(header) + multiset(ComplexityBlock(sig));
      SearchBlockNames(BinarySearch);
      SearchBlockNames(LinearSearch);
    }
  }

  /** A search block names its own idiom once and the other one never. */
  lemma SearchBlockNames(k: Search)
    ensures multiset(SearchBlock(k))[PatternDetected(k)] == 1
    ensures forall j :: j != k ==> multiset(SearchBlock(k))[PatternDetected(j)] == 0
  {
  }

  /** How often the trailing section names each search idiom. */
  lemma TrailingSectionSearches(sig: Signals)
    ensures var m := multiset(TrailingSection(sig));
            && m[PatternDetected(BinarySearch)] == (if sig.isBinarySearch then 1 else 0)
            && m[PatternDetected(LinearSearch)] == (if sig.isLinearSearch then 1 else 0)
  {
    SearchBlockNames(BinarySearch);
    SearchBlockNames(LinearSearch);
  }

  /** The other sections never name a search idiom. */
  lemma OtherSectionsNoSearch(sig: Signals, log2Fixed: nat -> string, k: Search)
    ensures PatternDetected(k) !in RecursionSection(sig, log2Fixed)
    ensures PatternDetected(k) !in ClosingSection(sig)
  {
    match sig.recursion
    case None =>
    case Some(f) =>
      var log := log2Fixed(f.calls);
      assert PatternDetected(k) !in RecursionSummary(f, log);
      assert PatternDetected(k) !in MasterConclusion(f.calls, log);
  }

  /** Occurrences in five concatenated pieces add up. */
  lemma CountConcat(a: seq<Line>, b: seq<Line>, c: seq<Line>, d: seq<Line>, e: seq<Line>, x: Line)
    ensures multiset(a + b + c + d + e)[x]
            == multiset(a)[x] + multiset(b)[x] + multiset(c)[x] + multiset(d)[x] + multiset(e)[x]
  {
    assert multiset(a + b + c + d + e) == multiset(a) + multiset(b) + multiset(c) + multiset(d) + multiset(e);
  }

  /** How often a search idiom is named in the plan, section by section. */
  lemma SearchCount(sig: Signals, log2Fixed: nat -> string, k: Search)
    ensures multiset(Plan(sig, log2Fixed))[PatternDetected(k)]
            == multiset(LoopSection(sig))[PatternDetected(k)] + multiset(TrailingSection(sig))[PatternDetected(k)]
  {
    var x := PatternDetected(k);
    CountConcat([Started], LoopSection(sig), RecursionSection(sig, log2Fixed), TrailingSection(sig),
                ClosingSection(sig), x);
    OtherSectionsNoSearch(sig, log2Fixed, k);
    assert multiset([Started])[x] == 0;
  }

  /** The search blocks are narrated twice when there are loops: once in
      the loop section and once more afterwards. Linear search is narrated
      in the loop section only when binary search is not recognized. */
  lemma SearchBlocksRepeat(sig: Signals, log2Fixed: nat -> string)
    ensures var m := multiset(Plan(sig, log2Fixed));
            && m[PatternDetected(BinarySearch)]
                 == (if sig.isBinarySearch then (if sig.loopCount > 0 then 2 else 1) else 0)
            && m[PatternDetected(LinearSearch)]
                 == (if sig.isLinearSearch then (if sig.loopCount > 0 && !sig.isBinarySearch then 2 else 1) else 0)
  {
    SearchCount(sig, log2Fixed, BinarySearch);
    SearchCount(sig, log2Fixed, LinearSearch);
    LoopSectionSearches(sig);
    TrailingSectionSearches(sig);
  }

  /** `T(n) = C1` is rendered from the closing line only. */
  lemma ConstantFormulaTextIsUnique(l: Line)
    ensures LineText(l) == "T(n) = C1" ==> l == ConstantFormula
  {
  }

  /** Only the closing section holds the closing formula line. */
  lemma ConstantFormulaOutsideClosing(sig: Signals, log2Fixed: nat -> string)
    ensures ConstantFormula !in LoopSection(sig)
    ensures ConstantFormula !in RecursionSection(sig, log2Fixed)
    ensures ConstantFormula !in TrailingSection(sig)
  {
    match sig.recursion
    case None =>
    case Some(f) =>
      var log := log2Fixed(f.calls);
      assert RecursionSection(sig, log2Fixed) == RecursionSummary(f, log) + MasterConclusion(f.calls, log);
  }

  /** The closing formula line comes from the closing section only. */
  lemma ConstantFormulaOnlyInClosing(sig: Signals, log2Fixed: nat -> string)
    ensures ConstantFormula in Plan(sig, log2Fixed) <==> sig.loopCount == 0 && sig.recursion.None?
  {
    InPlan(sig, log2Fixed, ConstantFormula);
    ConstantFormulaOutsideClosing(sig, log2Fixed);
  }

  /** `T(n) = C1` is among the rendered lines exactly when the closing
      formula line is in the plan. */
  lemma RenderedConstantFormula(p: seq<Line>)
    ensures "T(n) = C1" in Render(p) <==> ConstantFormula in p
  {
    var out := Render(p);
    if "T(n) = C1" in out {
      var k :| 0 <= k < |out| && out[k] == "T(n) = C1";
      ConstantFormulaTextIsUnique(p[k]);
    }
    if ConstantFormula in p {
      var k :| 0 <= k < |p| && p[k] == ConstantFormula;
      assert out[k] == LineText(ConstantFormula);
    }
  }

  /** With no loops and no recursion, the plan ends with the closing lines. */
  lemma ClosingLinesLast(sig: Signals, log2Fixed: nat -> string)
    requires sig.loopCount == 0 && sig.recursion.None?
    ensures var p := Plan(sig, log2Fixed);
            |p| >= 2 && p[|p| - 2] == ConstantTime && p[|p| - 1] == ConstantFormula
  {
    var rest := [Started] + LoopSection(sig) + RecursionSection(sig, log2Fixed) + TrailingSection(sig);
    assert Plan(sig, log2Fixed) == rest + [ConstantTime, ConstantFormula];
  }

  /** The `O(1)` closing appears exactly when there are no loops and no
      recursion: `T(n) = C1` is in the output then and only then. */
  lemma ConstantTimeClosing(sig: Signals, log2Fixed: nat -> string)
    ensures "T(n) = C1" in Render(Plan(sig, log2Fixed)) <==> sig.loopCount == 0 && sig.recursion.None?
  {
    RenderedConstantFormula(Plan(sig, log2Fixed));
    ConstantFormulaOnlyInClosing(sig, log2Fixed);
  }

  /** The `O(1)` closing lines, when they appear, are the last two lines. */
  lemma ConstantTimeLast(sig: Signals, log2Fixed: nat -> string)
    requires sig.loopCount == 0 && sig.recursion.None?
    ensures var out := Render(Plan(sig, log2Fixed));
            && |out| >= 2
            && out[|out| - 2] == "\n📦 No loops or recursion detected → O(1)"
            && out[|out| - 1] == "T(n) = C1"
  {
    ClosingLinesLast(sig, log2Fixed);
    RenderEndsWith(Plan(sig, log2Fixed), ConstantTime, ConstantFormula);
    ConstantTimeText();
    ConstantFormulaText();
  }

  /** The text of the constant-time line. */
  lemma ConstantTimeText()
    ensures LineText(ConstantTime) == "\n📦 No loops or recursion detected → O(1)"
  {
  }

  /** The text of the closing formula line. */
  lemma ConstantFormulaText()
    ensures LineText(ConstantFormula) == "T(n) = C1"
  {
  }

  /** The last two texts are those of the last two lines. */
  lemma RenderEndsWith(p: seq<Line>, a: Line, b: Line)
    requires |p| >= 2 && p[|p| - 2] == a && p[|p| - 1] == b
    ensures var out := Render(p);
            |out| >= 2 && out[|out| - 2] == LineText(a) && out[|out| - 1] == LineText(b)
  {
  }

  /** When recursion is detected and no search idiom is recognized, the
      narration ends with the master-theorem conclusion. */
  lemma EndsWithMasterConclusion(sig: Signals, log2Fixed: nat -> string)
    requires WellFormed(sig) && sig.recursion.Some?
    requires !sig.isBinarySearch && !sig.isLinearSearch
    ensures var out := Render(Plan(sig, log2Fixed));
            var a := sig.recursion.value.calls;
            && |out| >= 1
            && out[|out| - 1] == (if a == 2 then "\n🟢 Final Time Complexity: O(n log n)"
                                 else "→ Case 1: T(n) = Θ(n^" + log2Fixed(a) + ")")
  {
    var p := Plan(sig, log2Fixed);
    var a := sig.recursion.value.calls;
    var rec := RecursionSection(sig, log2Fixed);
    assert p == [Started] + LoopSection(sig) + rec;
    assert p[|p| - 1] == rec[|rec| - 1];
  }
}
