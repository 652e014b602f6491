/** The loop and nesting scanner of `analyzeCode`: one pass over the lines of
    the text that counts loop headers and tracks how deeply they nest. */
module Scanner {
  import opened Text

  /** A line whose trimmed text begins with `for` or `while`. There is no
      word-boundary check, so `forward = 1;` counts as a loop header. */
  predicate IsLoopLine(line: string) {
    var t := Trim(line);
    "for" <= t || "while" <= t
  }

  /** A line whose trimmed text is exactly a closing brace. */
  predicate IsCloseLine(line: string) {
    Trim(line) == "}"
  }

  /** The three counters the scan updates: `loopCount`, `currentDepth` and
      `loopDepth` (the deepest `currentDepth` seen). */
  datatype ScanState = ScanState(loopCount: nat, currentDepth: nat, loopDepth: nat)

  const Start := ScanState(0, 0, 0)

  /** The effect of one line: a loop header raises the count and the depth
      (and the maximum when the depth passes it); then a lone closing brace
      lowers the depth, never below zero. */
  function Step(s: ScanState, line: string): ScanState {
    var afterLoop :=
      if IsLoopLine(line) then
        var d := s.currentDepth + 1;
        ScanState(s.loopCount + 1, d, if d > s.loopDepth then d else s.loopDepth)
      else s;
    if IsCloseLine(line) then
      afterLoop.(currentDepth := if afterLoop.currentDepth - 1 > 0 then afterLoop.currentDepth - 1 else 0)
    else afterLoop
  }

  /** The counters after the lines, taken in order, starting from `s`. */
  function Scan(s: ScanState, lines: seq<string>): ScanState
    decreases |lines|
  {
    if lines == [] then s else Step(Scan(s, lines[..|lines| - 1]), lines[|lines| - 1])
  }

  /** The counters after the whole text, starting from zero. */
  function Run(lines: seq<string>): ScanState {
    Scan(Start, lines)
  }

  /** What holds of the counters at every point of the scan: the running
      depth never exceeds the recorded maximum, the maximum never exceeds the
      number of loop headers, and the maximum is zero exactly when no loop
      header has been seen. */
  predicate Consistent(s: ScanState) {
    && s.currentDepth <= s.loopDepth <= s.loopCount
    && (s.loopDepth == 0 <==> s.loopCount == 0)
  }

  /** No line is both a loop header and a closing brace. */
  lemma LoopAndCloseExclusive(line: string)
    ensures !(IsLoopLine(line) && IsCloseLine(line))
  {
    if IsCloseLine(line) {
      var t := Trim(line);
      assert t == "}";
      assert !("for" <= t) by { assert t[0] != 'f'; }
      assert !("while" <= t) by { assert t[0] != 'w'; }
    }
  }

  /** What one line does: a loop header adds one loop and one level; a lone
      closing brace leaves the count and the maximum alone and removes one
      level, never going below zero; any other line changes nothing. */
  lemma StepEffects(s: ScanState, line: string)
    ensures IsLoopLine(line) ==>
              && Step(s, line).loopCount == s.loopCount + 1
              && Step(s, line).currentDepth == s.currentDepth + 1
    ensures IsCloseLine(line) ==>
              && Step(s, line).loopCount == s.loopCount
              && Step(s, line).loopDepth == s.loopDepth
              && Step(s, line).currentDepth == (if s.currentDepth > 0 then s.currentDepth - 1 else 0)
    ensures !IsLoopLine(line) && !IsCloseLine(line) ==> Step(s, line) == s
  {
    LoopAndCloseExclusive(line);
  }

  /** Every line keeps the counters consistent. */
  lemma StepConsistent(s: ScanState, line: string)
    requires Consistent(s)
    ensures Consistent(Step(s, line))
    ensures Step(s, line).loopCount >= s.loopCount && Step(s, line).loopDepth >= s.loopDepth
    ensures Step(s, line).loopDepth == s.loopDepth || Step(s, line).loopDepth == Step(s, line).currentDepth
  {
    LoopAndCloseExclusive(line);
  }

  /** The counters are consistent throughout a scan from zero. */
  lemma {:induction false} RunConsistent(lines: seq<string>)
    ensures Consistent(Run(lines))
  {
    if lines != [] {
      RunConsistent(lines[..|lines| - 1]);
      StepConsistent(Run(lines[..|lines| - 1]), lines[|lines| - 1]);
    }
  }

  /** Scanning a text in two pieces is scanning the whole. */
  lemma {:induction false} ScanAppend(s: ScanState, a: seq<string>, b: seq<string>)
    ensures Scan(s, a + b) == Scan(Scan(s, a), b)
    decreases |b|
  {
    if b == [] {
      assert a + b == a;
    } else {
      var b' := b[..|b| - 1];
      assert (a + b)[..|a + b| - 1] == a + b';
      ScanAppend(s, a, b');
    }
  }

  /** A line that is neither a loop header nor a lone closing brace changes
      nothing: the counters come out the same with it removed. */
  lemma OtherLineIgnored(before: seq<string>, line: string, after: seq<string>)
    requires !IsLoopLine(line) && !IsCloseLine(line)
    ensures Run(before + [line] + after) == Run(before + after)
  {
    ScanAppend(Start, before + [line], after);
    ScanAppend(Start, before, after);
    assert (before + [line])[..|before + [line]| - 1] == before;
  }

  /** The positions of the loop headers among the lines. */
  function LoopPositions(lines: seq<string>): set<nat> {
    set k: nat | k < |lines| && IsLoopLine(lines[k])
  }

  /** `loopCount` is the number of lines that are loop headers; lone closing
      braces and all other lines leave it alone. */
  lemma {:induction false} LoopCountIsLoopLines(lines: seq<string>)
    ensures Run(lines).loopCount == |LoopPositions(lines)|
  {
    if lines != [] {
      var n := |lines| - 1;
      var front := lines[..n];
      LoopCountIsLoopLines(front);
      assert Run(lines) == Step(Run(front), lines[n]);
      LoopAndCloseExclusive(lines[n]);
      LoopPositionsSnoc(lines);
    }
  }

  /** The loop positions of a text are those of all but its last line, plus
      the last line when it is a loop header. */
  lemma LoopPositionsSnoc(lines: seq<string>)
    requires lines != []
    ensures var n := |lines| - 1;
            LoopPositions(lines) == LoopPositions(lines[..n]) + (if IsLoopLine(lines[n]) then {n} else {})
  {
    var n := |lines| - 1;
    var front := lines[..n];
    forall k: nat | k < n ensures lines[k] == front[k] {
    }
  }

  /** No point of the scan is deeper than `loopDepth`. */
  lemma {:induction false} NoPointDeeper(lines: seq<string>, k: nat)
    requires k <= |lines|
    ensures Run(lines[..k]).currentDepth <= Run(lines).loopDepth
    decreases |lines|
  {
    var n := |lines| - 1;
    if k == |lines| {
      assert lines[..k] == lines;
      RunConsistent(lines);
    } else {
      var front := lines[..n];
      assert lines[..k] == front[..k];
      NoPointDeeper(front, k);
      assert Run(lines) == Step(Run(front), lines[n]);
      RunConsistent(front);
      StepConsistent(Run(front), lines[n]);
    }
  }

  /** Some point of the scan (the start, when there is no loop) is exactly
      `loopDepth` deep. */
  lemma {:induction false} DeepestPoint(lines: seq<string>) returns (k: nat)
    ensures k <= |lines| && Run(lines[..k]).currentDepth == Run(lines).loopDepth
  {
    if lines == [] {
      k := 0;
      assert lines[..0] == lines;
    } else {
      var n := |lines| - 1;
      var front := lines[..n];
      var before := Run(front);
      var after := Run(lines);
      assert after == Step(before, lines[n]);
      RunConsistent(front);
      StepConsistent(before, lines[n]);
      if after.loopDepth == before.loopDepth {
        k := DeepestPoint(front);
        assert lines[..k] == front[..k];
      } else {
        k := |lines|;
        assert lines[..k] == lines;
      }
    }
  }

  /** `loopDepth` is the running maximum of `currentDepth` over the scan. */
  lemma LoopDepthIsRunningMaximum(lines: seq<string>)
    ensures forall k :: 0 <= k <= |lines| ==> Run(lines[..k]).currentDepth <= Run(lines).loopDepth
    ensures exists k :: 0 <= k <= |lines| && Run(lines[..k]).currentDepth == Run(lines).loopDepth
  {
    forall k | 0 <= k <= |lines| ensures Run(lines[..k]).currentDepth <= Run(lines).loopDepth {
      NoPointDeeper(lines, k);
    }
    var k := DeepestPoint(lines);
  }

  /** The scan as `analyzeCode` runs it: `lines.forEach` over the local counters. */
  method ScanLines(lines: seq<string>) returns (loopCount: nat, loopDepth: nat)
    ensures loopCount == Run(lines).loopCount && loopDepth == Run(lines).loopDepth
    ensures loopCount == |LoopPositions(lines)|
    ensures loopDepth <= loopCount && (loopDepth > 0 <==> loopCount > 0)
  {
    loopCount, loopDepth := 0, 0;
    var currentDepth: nat := 0;
    for i := 0 to |lines|
      invariant ScanState(loopCount, currentDepth, loopDepth) == Run(lines[..i])
    {
      var trimmed := Trim(lines[i]);
      if "for" <= trimmed || "while" <= trimmed {
        loopCount := loopCount + 1;
        currentDepth := currentDepth + 1;
        if currentDepth > loopDepth {
          loopDepth := currentDepth;
        }
      }
      if trimmed == "}" {
        currentDepth := if currentDepth - 1 > 0 then currentDepth - 1 else 0;
      }
      assert lines[..i + 1][..i] == lines[..i];
      assert Run(lines[..i + 1]) == Step(Run(lines[..i]), lines[i]);
    }
    assert lines[..|lines|] == lines;
    LoopCountIsLoopLines(lines);
    RunConsistent(lines);
  }
}
