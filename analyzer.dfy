/** `analyzeCode` as a whole: the empty-input guard, the scan, the recursion
    detector and the narration, joined into the text it displays. */
module Analyzer {
  import opened Wrappers
  import opened Text
  import opened Scanner
  import opened Recursion
  import opened Narration
  import opened NarrationFacts

  /** What is displayed for a blank input. */
  const EmptyInputMessage: string := "Please enter C code."

  /** The signals the analysis gathers from a non-blank text, given the
      outcome of the search-pattern tests. */
  function SignalsOf(code: string, isBinarySearch: bool, isLinearSearch: bool): (sig: Signals)
    ensures WellFormed(sig)
    ensures sig.loopCount == |LoopPositions(Split(code))|
    ensures sig.recursion == DetectRecursion(code)
  {
    var lines := Split(code);
    var scan := Run(lines);
    RunConsistent(lines);
    LoopCountIsLoopLines(lines);
    Signals(scan.loopCount, scan.loopDepth, DetectRecursion(code), isBinarySearch, isLinearSearch)
  }

  /** The displayed text: the message for a blank input, otherwise every
      narration line joined with line feeds. */
  function Analysis(code: string, isBinarySearch: bool, isLinearSearch: bool, log2Fixed: nat -> string): string {
    if Trim(code) == [] then EmptyInputMessage
    else Join(Render(Plan(SignalsOf(code, isBinarySearch, isLinearSearch), log2Fixed)), "\n")
  }

  /** `analyzeCode`, with the DOM read and write as parameter and result. */
  method AnalyzeCode(code: string, isBinarySearch: bool, isLinearSearch: bool, log2Fixed: nat -> string)
    returns (output: string)
    ensures output == Analysis(code, isBinarySearch, isLinearSearch, log2Fixed)
    ensures output == EmptyInputMessage <==> AllSpace(code)
  {
    BlankMessageIffBlank(code, isBinarySearch, isLinearSearch, log2Fixed);
    if Trim(code) == [] {
      output := EmptyInputMessage;
      return;
    }

    var lines := Split(code);
    var loopCount, loopDepth := ScanLines(lines);

    var recursionDetected := false;
    var recursiveFuncName: string := "";
    var recursiveCalls: nat := 0;
    var funcMatch := FirstDefinition(code);
    if funcMatch.Some? {
      recursiveFuncName := NameAt(code, funcMatch.value);
      var recursiveMatches := CallCount(code, recursiveFuncName);
      if recursiveMatches >= 2 {
        recursionDetected := true;
        recursiveCalls := recursiveMatches;
      }
    }

    var recursion := if recursionDetected then Some(RecursiveFunction(recursiveFuncName, recursiveCalls)) else None;
    var sig := Signals(loopCount, loopDepth, recursion, isBinarySearch, isLinearSearch);
    assert sig == SignalsOf(code, isBinarySearch, isLinearSearch);
    var steps := Narrate(sig, log2Fixed);
    output := Join(steps, "\n");
  }

  /** A non-blank text is narrated, and the narration opens with the start
      marker. */
  lemma NonBlankStartsWithMarker(code: string, isBinarySearch: bool, isLinearSearch: bool, log2Fixed: nat -> string)
    requires !AllSpace(code)
    ensures "🔍 Code Analysis Started" <= Analysis(code, isBinarySearch, isLinearSearch, log2Fixed)
  {
    BlankIffAllSpace(code);
    var out := Render(Plan(SignalsOf(code, isBinarySearch, isLinearSearch), log2Fixed));
    OpensWithStartMarker(SignalsOf(code, isBinarySearch, isLinearSearch), log2Fixed);
    JoinStartsWithFirst(out, "\n");
  }

  /** The empty-input message is shown exactly for a text that is all white
      space; no narration line can be mistaken for it. */
  lemma BlankMessageIffBlank(code: string, isBinarySearch: bool, isLinearSearch: bool, log2Fixed: nat -> string)
    ensures Analysis(code, isBinarySearch, isLinearSearch, log2Fixed) == EmptyInputMessage <==> AllSpace(code)
  {
    BlankIffAllSpace(code);
    if !AllSpace(code) {
      NonBlankStartsWithMarker(code, isBinarySearch, isLinearSearch, log2Fixed);
      var out := Analysis(code, isBinarySearch, isLinearSearch, log2Fixed);
      assert out[0] == '🔍';
      assert EmptyInputMessage[0] == 'P';
    }
  }

  /** Only the lines that open a loop or close a block count: a line that
      does neither can be removed from the text (with its line feed) without
      changing what is narrated about loops. */
  lemma OtherLineChangesNothing(before: seq<string>, line: string, after: seq<string>,
                                isBinarySearch: bool, isLinearSearch: bool)
    requires !IsLoopLine(line) && !IsCloseLine(line)
    requires forall k :: 0 <= k < |before + [line] + after| ==> '\n' !in (before + [line] + after)[k]
    ensures var s1 := SignalsOf(Join(before + [line] + after, "\n"), isBinarySearch, isLinearSearch);
            var s2 := SignalsOf(Join(before + after, "\n"), isBinarySearch, isLinearSearch);
            s1.loopCount == s2.loopCount && s1.loopDepth == s2.loopDepth
  {
    var whole := before + [line] + after;
    var shorter := before + after;
    SplitJoin(whole);
    if shorter == [] {
      // Removing the only line leaves the empty text, whose one piece is
      // the empty line, which opens no loop and closes no block either.
      assert whole == [] + [line] + [];
      assert Split(Join(shorter, "\n")) == [] + [""] + [];
      OtherLineIgnored([], line, []);
      OtherLineIgnored([], "", []);
      return;
    }
    forall k | 0 <= k < |shorter| ensures '\n' !in shorter[k] {
      if k < |before| {
        assert shorter[k] == whole[k];
      } else {
        assert shorter[k] == whole[k + 1];
      }
    }
    SplitJoin(shorter);
    OtherLineIgnored(before, line, after);
  }
}
